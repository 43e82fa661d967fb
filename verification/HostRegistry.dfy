/** The registry of active runtime hosts, `gateway/runtime_host_slot.go`, and the life of a slot in
    `Submit` and `Recover` of `gateway/runtime_backend.go`: reserve, bind, complete and close. */
module HostRegistry {
  import opened Outcome

  // ---- the registry as a value -------------------------------------------

  /** `closes` counts closings of the `done` channel; a second one would panic. */
  datatype Slot = Slot(executionId: string, runtime: Option<nat>, bound: bool, closes: nat)

  /** `slots` holds every slot ever made; `closeDone` counts closings of that channel. */
  datatype Registry<S(==)> = Registry(hosts: map<string, S>, slots: map<S, Slot>, closed: bool, once: bool, closeDone: nat)

  datatype Error<S> = BackendClosed | Active(existing: S) | ReservationLost

  function ReserveError<S>(r: Registry<S>, session: string): Option<Error<S>> {
    if r.closed then Some(BackendClosed)
    else if session in r.hosts then Some(Active(r.hosts[session]))
    else None
  }

  function Reserved<S>(r: Registry<S>, session: string, slot: S): Registry<S> {
    if ReserveError(r, session).Some? then r else r.(hosts := r.hosts[session := slot])
  }

  function BindError<S>(r: Registry<S>, session: string, slot: S): Option<Error<S>> {
    if r.closed then Some(BackendClosed)
    else if session !in r.hosts then Some(ReservationLost)
    else if r.hosts[session] != slot then Some(Active(r.hosts[session]))
    else None
  }

  function Bound<S>(r: Registry<S>, session: string, slot: S, executionId: string, runtime: nat): Registry<S>
    requires slot in r.slots
  {
    if BindError(r, session, slot).Some? then r
    else r.(slots := r.slots[slot := r.slots[slot].(executionId := executionId, runtime := Some(runtime), bound := true)])
  }

  /** `closeIfIdleLocked`. */
  function Settled<S>(r: Registry<S>): Registry<S> {
    if r.closed && r.hosts == map[] && !r.once then r.(once := true, closeDone := r.closeDone + 1) else r
  }

  function Completed<S>(r: Registry<S>, session: string, slot: S): Registry<S>
    requires slot in r.slots
  {
    Settled(Removed(r, session, slot))
  }

  function Removed<S>(r: Registry<S>, session: string, slot: S): Registry<S>
    requires slot in r.slots
  {
    r.(hosts := if session in r.hosts && r.hosts[session] == slot then r.hosts - {session} else r.hosts,
       slots := r.slots[slot := r.slots[slot].(closes := r.slots[slot].closes + 1)])
  }

  function Closing<S>(r: Registry<S>): Registry<S> { Settled(r.(closed := true)) }

  // ---- submissions, recoveries and close as steps ------------------------

  datatype Phase =
    | Entering   // the slot exists, `reserve` not yet called
    | Setting    // reserved, preparing the runtime
    | Running    // bound
    | Leaving    // about to call `complete`

  /** One `Submit` or `Recover` with its background run; recovery binds the identifier it
      reserved with. */
  datatype Thread<S> = Thread(session: string, slot: S, recovering: bool, phase: Phase)

  /** `reserved` is history: the slots that were ever in the table. */
  datatype State<S(==)> = State(registry: Registry<S>, threads: map<nat, Thread<S>>, reserved: set<S>)

  datatype Step<S> =
    | Start(t: nat, session: string, slot: S, recovering: bool, executionId: string)
    | Reserve(t: nat)
    | Abandon(t: nat)
    | Bind(t: nat, executionId: string, runtime: nat)
    | Finish(t: nat)
    | Complete(t: nat)
    | BeginClose

  predicate In<S(==)>(s: State<S>, t: nat, phase: Phase) { t in s.threads && s.threads[t].phase == phase }

  predicate Enabled<S>(s: State<S>, step: Step<S>) {
    match step
    case Start(t, _, slot, _, _) => t !in s.threads && slot !in s.registry.slots
    case Reserve(t) => In(s, t, Entering)
    case Abandon(t) => In(s, t, Setting)
    case Bind(t, _, _) => In(s, t, Setting) && s.threads[t].slot in s.registry.slots
    case Finish(t) => In(s, t, Running)
    case Complete(t) => In(s, t, Leaving) && s.threads[t].slot in s.registry.slots
    case BeginClose => true
  }

  function Goto<S>(s: State<S>, t: nat, phase: Phase): State<S>
    requires t in s.threads
  {
    s.(threads := s.threads[t := s.threads[t].(phase := phase)])
  }

  function Next<S>(s: State<S>, step: Step<S>): State<S>
    requires Enabled(s, step)
  {
    match step
    case Start(t, session, slot, recovering, executionId) =>
      State(s.registry.(slots := s.registry.slots[slot := Slot(executionId, None, false, 0)]),
            s.threads[t := Thread(session, slot, recovering, Entering)], s.reserved)
    case Reserve(t) =>
      var me := s.threads[t];
      if ReserveError(s.registry, me.session).Some? then s.(threads := s.threads - {t})
      else Goto(s, t, Setting).(registry := Reserved(s.registry, me.session, me.slot), reserved := s.reserved + {me.slot})
    case Abandon(t) => Goto(s, t, Leaving)
    case Bind(t, executionId, runtime) =>
      var me := s.threads[t];
      var id := if me.recovering then s.registry.slots[me.slot].executionId else executionId;
      if BindError(s.registry, me.session, me.slot).Some? then Goto(s, t, Leaving)
      else Goto(s, t, Running).(registry := Bound(s.registry, me.session, me.slot, id, runtime))
    case Finish(t) => Goto(s, t, Leaving)
    case Complete(t) =>
      State(Completed(s.registry, s.threads[t].session, s.threads[t].slot), s.threads - {t}, s.reserved)
    case BeginClose => s.(registry := Closing(s.registry))
  }

  // ---- invariant ---------------------------------------------------------

  predicate Inside(phase: Phase) { phase != Entering }

  /** A thread owns its slot, alone, and keeps it in the table from reserve to complete. */
  ghost predicate ThreadOk<S>(s: State<S>, t: nat)
    requires t in s.threads
  {
    var me := s.threads[t];
    && me.slot in s.registry.slots && s.registry.slots[me.slot].closes == 0
    && (me.slot in s.reserved <==> Inside(me.phase))
    && (Inside(me.phase) ==> me.session in s.registry.hosts && s.registry.hosts[me.session] == me.slot)
    && (me.phase == Running ==> s.registry.slots[me.slot].bound)
    && (forall u :: u in s.threads && u != t ==> s.threads[u].slot != me.slot)
  }

  ghost predicate Owned<S>(s: State<S>, slot: S) {
    exists t :: t in s.threads && s.threads[t].slot == slot && Inside(s.threads[t].phase)
  }

  ghost predicate Hosting<S>(s: State<S>, t: nat, session: string)
    requires session in s.registry.hosts
  {
    t in s.threads && Inside(s.threads[t].phase)
    && s.threads[t].session == session && s.threads[t].slot == s.registry.hosts[session]
  }

  ghost predicate HostOk<S>(s: State<S>, session: string)
    requires session in s.registry.hosts
  {
    exists t :: Hosting(s, t, session)
  }

  /** A reserved slot has been completed exactly once, or its owner is still there. */
  ghost predicate SlotOk<S>(s: State<S>, slot: S) {
    slot in s.registry.slots && (s.registry.slots[slot].closes == 1 || Owned(s, slot))
  }

  ghost predicate CloseOk<S>(r: Registry<S>) {
    r.closeDone == (if r.once then 1 else 0) && (r.once <==> r.closed && r.hosts == map[])
  }

  ghost predicate ThreadsOk<S>(s: State<S>) { forall t :: t in s.threads ==> ThreadOk(s, t) }

  ghost predicate HostsOk<S>(s: State<S>) { forall session :: session in s.registry.hosts ==> HostOk(s, session) }

  ghost predicate SlotsOk<S>(s: State<S>) { forall slot :: slot in s.reserved ==> SlotOk(s, slot) }

  ghost predicate Inv<S>(s: State<S>) { ThreadsOk(s) && HostsOk(s) && SlotsOk(s) && CloseOk(s.registry) }

  /** What a step of thread `t`, on its own slot and session, leaves alone. */
  ghost predicate Elsewhere<S>(s: State<S>, n: State<S>, t: nat, slot: S, session: string) {
    && s.threads - {t} == n.threads - {t}
    && (t in s.threads ==> s.threads[t].slot == slot && s.threads[t].session == session)
    && (t in n.threads ==> n.threads[t].slot == slot && n.threads[t].session == session)
    && (forall u :: u in s.threads && u != t ==> s.threads[u].slot != slot)
    && n.registry.slots - {slot} == s.registry.slots - {slot}
    && n.registry.hosts - {session} == s.registry.hosts - {session}
    && n.reserved - {slot} == s.reserved - {slot}
    && (session in s.registry.hosts ==>
          s.registry.hosts[session] == slot || (session in n.registry.hosts && n.registry.hosts[session] == s.registry.hosts[session]))
  }

  lemma OtherThread<S>(s: State<S>, n: State<S>, t: nat, slot: S, session: string, u: nat)
    requires Elsewhere(s, n, t, slot, session) && u != t
    ensures u in s.threads <==> u in n.threads
    ensures u in s.threads ==> n.threads[u] == s.threads[u] && s.threads[u].slot != slot
  {
    assert u in s.threads <==> u in s.threads - {t};
    assert u in n.threads <==> u in n.threads - {t};
    if u in s.threads { assert (s.threads - {t})[u] == (n.threads - {t})[u]; }
  }

  lemma OtherSlot<S>(s: State<S>, n: State<S>, t: nat, slot: S, session: string, other: S)
    requires Elsewhere(s, n, t, slot, session) && other != slot
    ensures other in s.registry.slots <==> other in n.registry.slots
    ensures other in s.registry.slots ==> n.registry.slots[other] == s.registry.slots[other]
    ensures other in s.reserved <==> other in n.reserved
  {
    var a, b := s.registry.slots, n.registry.slots;
    assert other in a <==> other in a - {slot};
    assert other in b <==> other in b - {slot};
    if other in a { assert (a - {slot})[other] == (b - {slot})[other]; }
    assert other in s.reserved <==> other in s.reserved - {slot};
    assert other in n.reserved <==> other in n.reserved - {slot};
  }

  lemma OtherSession<S>(s: State<S>, n: State<S>, t: nat, slot: S, session: string, other: string)
    requires Elsewhere(s, n, t, slot, session)
    requires other != session || (other in s.registry.hosts && s.registry.hosts[other] != slot)
    ensures other in s.registry.hosts <==> other in n.registry.hosts
    ensures other in s.registry.hosts ==> n.registry.hosts[other] == s.registry.hosts[other]
  {
    if other != session {
      var a, b := s.registry.hosts, n.registry.hosts;
      assert other in a <==> other in a - {session};
      assert other in b <==> other in b - {session};
      if other in a { assert (a - {session})[other] == (b - {session})[other]; }
    }
  }

  lemma OtherThreadOk<S>(s: State<S>, n: State<S>, t: nat, slot: S, session: string, u: nat)
    requires Elsewhere(s, n, t, slot, session) && u != t && u in s.threads && ThreadOk(s, u)
    ensures u in n.threads && ThreadOk(n, u)
  {
    OtherThread(s, n, t, slot, session, u);
    var me := s.threads[u];
    OtherSlot(s, n, t, slot, session, me.slot);
    if Inside(me.phase) { OtherSession(s, n, t, slot, session, me.session); }
    forall v | v in n.threads && v != u ensures n.threads[v].slot != me.slot {
      if v != t { OtherThread(s, n, t, slot, session, v); }
    }
  }

  lemma OtherHostOk<S>(s: State<S>, n: State<S>, t: nat, slot: S, session: string, other: string)
    requires Elsewhere(s, n, t, slot, session) && other != session && other in n.registry.hosts
    requires other in s.registry.hosts ==> HostOk(s, other)
    ensures HostOk(n, other)
  {
    OtherSession(s, n, t, slot, session, other);
    var u :| Hosting(s, u, other);
    OtherThread(s, n, t, slot, session, u);
    assert Hosting(n, u, other);
  }

  lemma OtherSlotOk<S>(s: State<S>, n: State<S>, t: nat, slot: S, session: string, other: S)
    requires Elsewhere(s, n, t, slot, session) && other != slot && SlotOk(s, other)
    ensures SlotOk(n, other)
  {
    OtherSlot(s, n, t, slot, session, other);
    if Owned(s, other) {
      var u :| u in s.threads && s.threads[u].slot == other && Inside(s.threads[u].phase);
      OtherThread(s, n, t, slot, session, u);
    }
  }

  /** A thread's own facts, apart from being the only owner. */
  ghost predicate Alone<S>(n: State<S>, t: nat, slot: S, session: string) {
    && (t in n.threads ==>
          var me := n.threads[t];
          && slot in n.registry.slots && n.registry.slots[slot].closes == 0
          && (slot in n.reserved <==> Inside(me.phase))
          && (Inside(me.phase) ==> session in n.registry.hosts && n.registry.hosts[session] == slot)
          && (me.phase == Running ==> n.registry.slots[slot].bound))
    && (session in n.registry.hosts ==> HostOk(n, session))
    && (slot in n.reserved ==> SlotOk(n, slot))
    && CloseOk(n.registry)
  }

  /** It is enough to look at the thread that moved. */
  lemma OwnStepKeeps<S>(s: State<S>, n: State<S>, t: nat, slot: S, session: string)
    requires Inv(s) && Elsewhere(s, n, t, slot, session) && Alone(n, t, slot, session)
    ensures Inv(n)
  {
    forall u | u in n.threads ensures ThreadOk(n, u) {
      if u != t {
        OtherThread(s, n, t, slot, session, u);
        OtherThreadOk(s, n, t, slot, session, u);
      } else {
        forall v | v in n.threads && v != t ensures n.threads[v].slot != slot { OtherThread(s, n, t, slot, session, v); }
      }
    }
    hide ThreadOk, CloseOk;
    forall other | other in n.registry.hosts ensures HostOk(n, other) {
      if other != session {
        OtherSession(s, n, t, slot, session, other);
        OtherHostOk(s, n, t, slot, session, other);
      }
    }
    forall other | other in n.reserved ensures SlotOk(n, other) {
      if other != slot {
        OtherSlot(s, n, t, slot, session, other);
        OtherSlotOk(s, n, t, slot, session, other);
      }
    }
  }

  /** The owner is the witness for its session and slot. */
  lemma OwnerOk<S>(n: State<S>, t: nat)
    requires t in n.threads && Inside(n.threads[t].phase) && n.threads[t].slot in n.registry.slots
    requires n.threads[t].session in n.registry.hosts && n.registry.hosts[n.threads[t].session] == n.threads[t].slot
    ensures HostOk(n, n.threads[t].session) && SlotOk(n, n.threads[t].slot)
  {
    assert Hosting(n, t, n.threads[t].session);
  }

  lemma StartKeeps<S>(s: State<S>, step: Step<S>)
    requires Inv(s) && Enabled(s, step) && step.Start?
    ensures Inv(Next(s, step))
  {
    var n := Next(s, step);
    assert step.slot in s.reserved ==> SlotOk(s, step.slot);
    forall u | u in s.threads ensures s.threads[u].slot != step.slot { assert ThreadOk(s, u); }
    var t, slot, session := step.t, step.slot, step.session;
    assert Elsewhere(s, n, t, slot, session);
    if session in n.registry.hosts {
      assert HostOk(s, session);
      var u :| Hosting(s, u, session);
      assert Hosting(n, u, session);
    }
    OwnStepKeeps(s, n, t, slot, session);
  }

  lemma RefusedKeeps<S>(s: State<S>, t: nat)
    requires Inv(s) && Enabled(s, Reserve(t)) && ReserveError(s.registry, s.threads[t].session).Some?
    ensures Inv(Next(s, Reserve(t)))
  {
    hide CloseOk;
    var n, me := Next(s, Reserve(t)), s.threads[t];
    assert ThreadOk(s, t);
    assert Elsewhere(s, n, t, me.slot, me.session);
    if me.session in n.registry.hosts {
      assert HostOk(s, me.session);
      var u :| Hosting(s, u, me.session);
      assert Hosting(n, u, me.session);
    }
    OwnStepKeeps(s, n, t, me.slot, me.session);
  }

  lemma ReserveKeeps<S>(s: State<S>, t: nat)
    requires Inv(s) && Enabled(s, Reserve(t)) && ReserveError(s.registry, s.threads[t].session).None?
    ensures Inv(Next(s, Reserve(t)))
  {
    hide HostOk, SlotOk;
    var n, me := Next(s, Reserve(t)), s.threads[t];
    assert ThreadOk(s, t);
    assert Elsewhere(s, n, t, me.slot, me.session);
    OwnerOk(n, t);
    OwnStepKeeps(s, n, t, me.slot, me.session);
  }

  /** The owner moves on and still owns its slot. */
  lemma InsideKeeps<S>(s: State<S>, step: Step<S>)
    requires Inv(s) && Enabled(s, step) && (step.Abandon? || step.Bind? || step.Finish?)
    ensures Inv(Next(s, step))
  {
    hide HostOk, SlotOk;
    var t := step.t;
    var n, me := Next(s, step), s.threads[t];
    assert ThreadOk(s, t);
    assert Elsewhere(s, n, t, me.slot, me.session);
    OwnerOk(n, t);
    OwnStepKeeps(s, n, t, me.slot, me.session);
  }

  lemma CompleteKeeps<S>(s: State<S>, t: nat)
    requires Inv(s) && Enabled(s, Complete(t))
    ensures Inv(Next(s, Complete(t)))
  {
    hide HostOk;
    var n, me := Next(s, Complete(t)), s.threads[t];
    assert ThreadOk(s, t);
    assert Elsewhere(s, n, t, me.slot, me.session);
    OwnStepKeeps(s, n, t, me.slot, me.session);
  }

  lemma CloseKeeps<S>(s: State<S>)
    requires Inv(s)
    ensures Inv(Next(s, BeginClose))
  {
    var n := Next(s, BeginClose);
    assert n.registry.hosts == s.registry.hosts && n.registry.slots == s.registry.slots;
    forall t | t in n.threads ensures ThreadOk(n, t) { assert ThreadOk(s, t); }
    forall session | session in n.registry.hosts ensures HostOk(n, session) {
      assert HostOk(s, session);
      var t :| Hosting(s, t, session);
      assert Hosting(n, t, session);
    }
    forall slot | slot in n.reserved ensures SlotOk(n, slot) {
      assert SlotOk(s, slot);
      assert Owned(s, slot) ==> Owned(n, slot);
    }
  }

  lemma StepKeeps<S>(s: State<S>, step: Step<S>)
    requires Inv(s) && Enabled(s, step)
    ensures Inv(Next(s, step))
  {
    hide Inv;
    match step
    case Start(_, _, _, _, _) => StartKeeps(s, step);
    case Reserve(t) =>
      if ReserveError(s.registry, s.threads[t].session).Some? { RefusedKeeps(s, t); } else { ReserveKeeps(s, t); }
    case Abandon(t) => InsideKeeps(s, step);
    case Bind(t, _, _) => InsideKeeps(s, step);
    case Finish(t) => InsideKeeps(s, step);
    case Complete(t) => CompleteKeeps(s, t);
    case BeginClose => CloseKeeps(s);
  }

  // ---- runs --------------------------------------------------------------

  ghost predicate Runs<S>(s: State<S>, steps: seq<Step<S>>, t: State<S>)
    decreases |steps|
  {
    if steps == [] then t == s else Enabled(s, steps[0]) && Runs(Next(s, steps[0]), steps[1..], t)
  }

  lemma {:induction false} RunKeeps<S>(s: State<S>, steps: seq<Step<S>>, t: State<S>)
    requires Inv(s) && Runs(s, steps, t)
    ensures Inv(t)
    decreases |steps|
  {
    hide Inv;
    if steps != [] {
      StepKeeps(s, steps[0]);
      RunKeeps(Next(s, steps[0]), steps[1..], t);
    }
  }

  ghost function Initial<S>(): State<S> { State(Registry(map[], map[], false, false, 0), map[], {}) }

  /** Over every interleaving: no channel is closed twice, a reserved slot without an owner was
      closed, `closeDone` is closed exactly when close has begun and every reserved slot has been
      completed, one thread at a time is inside a session, and a bind fails only after close. */
  lemma CloseHandshake<S>(steps: seq<Step<S>>, n: State<S>)
    requires Runs(Initial(), steps, n)
    ensures forall slot :: slot in n.reserved ==>
              slot in n.registry.slots && (n.registry.slots[slot].closes == if Owned(n, slot) then 0 else 1)
    ensures n.registry.closeDone <= 1
    ensures n.registry.closeDone == 1 <==> n.registry.closed && forall slot :: slot in n.reserved ==> !Owned(n, slot)
    ensures forall t, u :: t in n.threads && u in n.threads && t != u && n.threads[t].session == n.threads[u].session ==>
              !Inside(n.threads[t].phase) || !Inside(n.threads[u].phase)
    ensures forall t :: In(n, t, Setting) && !n.registry.closed ==> BindError(n.registry, n.threads[t].session, n.threads[t].slot).None?
    ensures forall t :: In(n, t, Leaving) ==> Enabled(n, Complete(t)) && n.registry.slots[n.threads[t].slot].closes == 0
  {
    hide Runs;
    RunKeeps(Initial(), steps, n);
    forall slot | slot in n.reserved
      ensures slot in n.registry.slots && (n.registry.slots[slot].closes == if Owned(n, slot) then 0 else 1) {
      ReservedSlot(n, slot);
    }
    ClosedWhenIdle(n);
    forall t, u | t in n.threads && u in n.threads && t != u && n.threads[t].session == n.threads[u].session
      ensures !Inside(n.threads[t].phase) || !Inside(n.threads[u].phase) {
      assert ThreadOk(n, t) && ThreadOk(n, u);
    }
    forall t | t in n.threads ensures ThreadOk(n, t) {}
  }

  lemma ReservedSlot<S>(n: State<S>, slot: S)
    requires Inv(n) && slot in n.reserved
    ensures slot in n.registry.slots && (n.registry.slots[slot].closes == if Owned(n, slot) then 0 else 1)
  {}

  lemma ClosedWhenIdle<S>(n: State<S>)
    requires Inv(n)
    ensures n.registry.closeDone == 1 <==> n.registry.closed && forall slot :: slot in n.reserved ==> !Owned(n, slot)
  {}

  /** In every reachable state a session is free exactly when no thread is inside it, and then a
      reservation is granted until close begins. */
  lemma ReservationIsExact<S>(steps: seq<Step<S>>, n: State<S>, t: nat)
    requires Runs(Initial(), steps, n) && In(n, t, Entering)
    ensures var me := n.threads[t];
            In(Next(n, Reserve(t)), t, Setting) <==>
            !n.registry.closed && forall u :: u in n.threads && n.threads[u].session == me.session ==> !Inside(n.threads[u].phase)
  {
    hide Runs;
    RunKeeps(Initial(), steps, n);
    var session := n.threads[t].session;
    if session in n.registry.hosts {
      assert HostOk(n, session);
      var u :| Hosting(n, u, session);
    }
    forall u | u in n.threads && n.threads[u].session == session && Inside(n.threads[u].phase) ensures session in n.registry.hosts {
      assert ThreadOk(n, u);
    }
  }

  /** Binding before close gives the slot its runtime and its execution: the submitted one, or for a
      recovery the one it reserved with. */
  lemma BindingStores<S>(s: State<S>, t: nat, executionId: string, runtime: nat)
    requires Inv(s) && Enabled(s, Bind(t, executionId, runtime)) && !s.registry.closed
    ensures var n, me := Next(s, Bind(t, executionId, runtime)), s.threads[t];
            && In(n, t, Running) && me.slot in n.registry.slots
            && n.registry.slots[me.slot].runtime == Some(runtime) && n.registry.slots[me.slot].bound
            && n.registry.slots[me.slot].executionId == (if me.recovering then s.registry.slots[me.slot].executionId else executionId)
            && n.registry.hosts == s.registry.hosts
            && forall slot :: slot in s.registry.slots && slot != me.slot ==> slot in n.registry.slots && n.registry.slots[slot] == s.registry.slots[slot]
  {
    hide HostsOk, SlotsOk, CloseOk;
    assert ThreadOk(s, t);
  }

  ghost function BoundSlots<S>(r: Registry<S>): set<S> { set slot | slot in r.slots && r.slots[slot].bound }

  lemma ClosedStep<S>(s: State<S>, step: Step<S>)
    requires Enabled(s, step) && s.registry.closed
    ensures var n := Next(s, step);
            n.registry.closed && n.reserved == s.reserved && BoundSlots(n.registry) == BoundSlots(s.registry)
            && s.registry.closeDone <= n.registry.closeDone
  {}

  /** Once close has begun no reservation and no binding succeeds any more. */
  lemma {:induction false} NothingAfterClose<S>(s: State<S>, steps: seq<Step<S>>, n: State<S>)
    requires s.registry.closed && Runs(s, steps, n)
    ensures n.registry.closed && n.reserved == s.reserved && BoundSlots(n.registry) == BoundSlots(s.registry)
    ensures s.registry.closeDone <= n.registry.closeDone
    decreases |steps|
  {
    hide BoundSlots;
    if steps != [] {
      ClosedStep(s, steps[0]);
      NothingAfterClose(Next(s, steps[0]), steps[1..], n);
    }
  }

  // ---- the registry object -----------------------------------------------

  class ActiveHostSlot {
    var executionId: string
    var runtime: Option<nat>
    var bound: bool
    var closes: nat

    constructor (executionId: string)
      ensures Value() == Slot(executionId, None, false, 0)
    {
      this.executionId, runtime, bound, closes := executionId, None, false, 0;
    }

    function Value(): Slot
      reads this
    {
      Slot(executionId, runtime, bound, closes)
    }
  }

  class ActiveHostRegistry {
    var hosts: map<string, ActiveHostSlot>
    var closed: bool
    var once: bool
    var closeDone: nat
    /** Every slot made for this registry. */
    ghost var made: set<ActiveHostSlot>

    constructor ()
      ensures Valid() && View() == Registry(map[], map[], false, false, 0) && made == {}
    {
      hosts, closed, once, closeDone, made := map[], false, false, 0, {};
    }

    ghost predicate Valid()
      reads this
    {
      hosts.Values <= made
    }

    ghost function View(): Registry<ActiveHostSlot>
      reads this, made
    {
      Registry(hosts, map slot | slot in made :: slot.Value(), closed, once, closeDone)
    }

    method NewSlot(executionId: string) returns (slot: ActiveHostSlot)
      requires Valid()
      modifies this`made
      ensures Valid() && fresh(slot) && made == old(made) + {slot}
      ensures View() == old(View()).(slots := old(View()).slots[slot := Slot(executionId, None, false, 0)])
    {
      slot := new ActiveHostSlot(executionId);
      made := made + {slot};
    }

    method Reserve(session: string, slot: ActiveHostSlot) returns (r: Option<Error<ActiveHostSlot>>)
      requires Valid() && slot in made
      modifies this`hosts
      ensures Valid() && r == ReserveError(old(View()), session)
      ensures View() == Reserved(old(View()), session, slot)
    {
      if closed { return Some(BackendClosed); }
      if session in hosts { return Some(Active(hosts[session])); }
      hosts := hosts[session := slot];
      r := None;
    }

    method Bind(session: string, slot: ActiveHostSlot, executionId: string, runtime: nat) returns (r: Option<Error<ActiveHostSlot>>)
      requires Valid() && slot in made
      modifies slot
      ensures Valid() && r == BindError(old(View()), session, slot)
      ensures View() == Bound(old(View()), session, slot, executionId, runtime)
    {
      if closed { return Some(BackendClosed); }
      if session !in hosts { return Some(ReservationLost); }
      if hosts[session] != slot { return Some(Active(hosts[session])); }
      slot.executionId, slot.runtime, slot.bound := executionId, Some(runtime), true;
      assert View().slots == Bound(old(View()), session, slot, executionId, runtime).slots;
      r := None;
    }

    method CloseIfIdle()
      requires Valid()
      modifies this`once, this`closeDone
      ensures Valid() && View() == Settled(old(View()))
    {
      if closed && |hosts| == 0 && !once {
        once := true;
        closeDone := closeDone + 1;
      }
    }

    method Remove(session: string, slot: ActiveHostSlot)
      requires Valid() && slot in made
      modifies this`hosts, slot
      ensures Valid() && View() == Removed(old(View()), session, slot)
    {
      if session in hosts && hosts[session] == slot { hosts := hosts - {session}; }
      slot.closes := slot.closes + 1;
      assert View().slots == Removed(old(View()), session, slot).slots;
    }

    method Complete(session: string, slot: ActiveHostSlot)
      requires Valid() && slot in made
      modifies this`hosts, this`once, this`closeDone, slot
      ensures Valid() && View() == Completed(old(View()), session, slot)
    {
      hide Settled, Removed;
      Remove(session, slot);
      CloseIfIdle();
    }

    /** The runtimes to shut down are those of the hosts present, and `started` says whether this
        was the first call. */
    method BeginClose() returns (runtimes: seq<nat>, started: bool)
      requires Valid()
      modifies this`closed, this`once, this`closeDone
      ensures Valid() && View() == Closing(old(View())) && started == !old(closed)
      ensures forall x :: x in runtimes <==> exists session :: session in hosts && hosts[session].runtime == Some(x)
    {
      started := !closed;
      closed := true;
      runtimes := [];
      var todo := hosts.Keys;
      while todo != {}
        invariant todo <= hosts.Keys
        invariant forall x :: x in runtimes <==> exists session :: session in hosts && session !in todo && hosts[session].runtime == Some(x)
        decreases todo
      {
        var session :| session in todo;
        var runtime := hosts[session].runtime;
        if runtime.Some? { runtimes := runtimes + [runtime.value]; }
        todo := todo - {session};
      }
      CloseIfIdle();
    }
  }
}
