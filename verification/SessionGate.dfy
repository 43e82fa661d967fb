/** The reference-counted per-session lock of `gateway/session_gate.go`.  Guards are created on
    first use and deleted with their last user; callers lock, give up and unlock in any order. */
module SessionGate {
  import opened Text

  // ---- the gate as a value ----------------------------------------------

  /** A guard: the tokens in its one-place channel and its reference count. */
  datatype Guard = Guard(tokens: nat, refs: int)

  /** `guards` holds every guard ever made; `locks` names those in the table. */
  datatype Gate<G(==)> = Gate(locks: map<string, G>, guards: map<G, Guard>)

  /** `retain`; `made` is the guard allocated when the session has none. */
  function Retained<G>(gate: Gate<G>, session: string, made: G): Gate<G>
    requires gate.locks.Values <= gate.guards.Keys
  {
    if session in gate.locks then
      var g := gate.locks[session];
      gate.(guards := gate.guards[g := gate.guards[g].(refs := gate.guards[g].refs + 1)])
    else Gate(gate.locks[session := made], gate.guards[made := Guard(1, 1)])
  }

  function Received<G>(gate: Gate<G>, g: G): Gate<G>
    requires g in gate.guards && gate.guards[g].tokens > 0
  {
    gate.(guards := gate.guards[g := gate.guards[g].(tokens := gate.guards[g].tokens - 1)])
  }

  function Sent<G>(gate: Gate<G>, g: G): Gate<G>
    requires g in gate.guards
  {
    gate.(guards := gate.guards[g := gate.guards[g].(tokens := gate.guards[g].tokens + 1)])
  }

  /** `release`: a guard that is no longer the session's is left alone. */
  function Released<G>(gate: Gate<G>, session: string, g: G): Gate<G>
    requires g in gate.guards
  {
    if session !in gate.locks || gate.locks[session] != g then gate
    else
      var less := gate.guards[g].(refs := gate.guards[g].refs - 1);
      Gate(if less.refs == 0 then gate.locks - {session} else gate.locks, gate.guards[g := less])
  }

  // ---- callers -----------------------------------------------------------

  datatype Phase =
    | Waiting    // in the select of `lock`
    | Holding    // returned from `lock`, unlock not yet called
    | Leaving    // gave up, or has put the token back; about to call `release`

  datatype Caller<G> = Caller(session: string, guard: G, phase: Phase)

  datatype State<G(==)> = State(gate: Gate<G>, callers: map<nat, Caller<G>>)

  datatype Step<G> =
    | Retain(c: nat, session: string, made: G)
    | Take(c: nat)
    | GiveUp(c: nat)
    | PutBack(c: nat)
    | Release(c: nat)

  predicate In<G(==)>(s: State<G>, c: nat, phase: Phase) { c in s.callers && s.callers[c].phase == phase }

  /** A receive needs a token; a send needs room in the channel. */
  predicate Enabled<G>(s: State<G>, step: Step<G>) {
    match step
    case Retain(c, _, made) => c !in s.callers && made !in s.gate.guards && s.gate.locks.Values <= s.gate.guards.Keys
    case Take(c) => In(s, c, Waiting) && s.callers[c].guard in s.gate.guards && s.gate.guards[s.callers[c].guard].tokens > 0
    case GiveUp(c) => In(s, c, Waiting)
    case PutBack(c) => In(s, c, Holding) && s.callers[c].guard in s.gate.guards && s.gate.guards[s.callers[c].guard].tokens < 1
    case Release(c) => In(s, c, Leaving) && s.callers[c].guard in s.gate.guards
  }

  function Move<G>(s: State<G>, c: nat, phase: Phase): State<G>
    requires c in s.callers
  {
    s.(callers := s.callers[c := s.callers[c].(phase := phase)])
  }

  function Next<G>(s: State<G>, step: Step<G>): State<G>
    requires Enabled(s, step)
  {
    match step
    case Retain(c, session, made) =>
      var gate := Retained(s.gate, session, made);
      assert session in gate.locks;
      State(gate, s.callers[c := Caller(session, gate.locks[session], Waiting)])
    case Take(c) => Move(s, c, Holding).(gate := Received(s.gate, s.callers[c].guard))
    case GiveUp(c) => Move(s, c, Leaving)
    case PutBack(c) => Move(s, c, Leaving).(gate := Sent(s.gate, s.callers[c].guard))
    case Release(c) => State(Released(s.gate, s.callers[c].session, s.callers[c].guard), s.callers - {c})
  }

  // ---- invariant ---------------------------------------------------------

  ghost function Users<G>(s: State<G>, session: string): set<nat> {
    set c | c in s.callers && s.callers[c].session == session
  }

  ghost function Holders<G>(s: State<G>, session: string): set<nat> {
    set c | c in s.callers && s.callers[c].session == session && s.callers[c].phase == Holding
  }

  /** The token is in the channel or with exactly one holder; the count is the users. */
  ghost predicate GuardOk<G>(s: State<G>, session: string)
    requires session in s.gate.locks
  {
    var g := s.gate.locks[session];
    g in s.gate.guards && s.gate.guards[g].tokens + |Holders(s, session)| == 1
    && s.gate.guards[g].refs == |Users(s, session)| > 0
  }

  ghost predicate Distinct<G>(locks: map<string, G>) {
    forall a, b :: a in locks && b in locks && locks[a] == locks[b] ==> a == b
  }

  /** A caller's guard is its session's guard in the table: no guard in use is removed. */
  ghost predicate CallerOk<G>(s: State<G>, c: nat)
    requires c in s.callers
  {
    s.callers[c].session in s.gate.locks && s.gate.locks[s.callers[c].session] == s.callers[c].guard
  }

  ghost predicate Inv<G>(s: State<G>) {
    Distinct(s.gate.locks)
    && (forall session :: session in s.gate.locks ==> GuardOk(s, session))
    && (forall c :: c in s.callers ==> CallerOk(s, c))
  }

  lemma LocksHaveGuards<G>(s: State<G>)
    requires Inv(s)
    ensures s.gate.locks.Values <= s.gate.guards.Keys
  {}

  /** A step of one caller leaves the callers of other sessions alone. */
  lemma OtherSessions<G>(s: State<G>, t: State<G>, c: nat, session: string, other: string)
    requires other != session
    requires c in s.callers ==> s.callers[c].session == session
    requires c in t.callers ==> t.callers[c].session == session
    requires s.callers - {c} == t.callers - {c}
    ensures Users(t, other) == Users(s, other) && Holders(t, other) == Holders(s, other)
  {
    forall d ensures d != c ==> (d in s.callers <==> d in t.callers) && (d in s.callers ==> s.callers[d] == t.callers[d]) {
      if d != c {
        assert d in s.callers <==> d in s.callers - {c};
        assert d in t.callers <==> d in t.callers - {c};
      }
    }
  }

  /** The same for the caller's own session: only the caller itself may join or leave. */
  lemma OwnSession<G>(s: State<G>, t: State<G>, c: nat, session: string)
    requires c in s.callers ==> s.callers[c].session == session
    requires c in t.callers ==> t.callers[c].session == session
    requires s.callers - {c} == t.callers - {c}
    ensures Users(t, session) == Users(s, session) - {c} + (if c in t.callers then {c} else {})
    ensures Holders(t, session) == Holders(s, session) - {c} + (if In(t, c, Holding) then {c} else {})
    ensures c in Users(s, session) <==> c in s.callers
    ensures c in Holders(s, session) <==> In(s, c, Holding)
  {
    forall d ensures d != c ==> (d in s.callers <==> d in t.callers) && (d in s.callers ==> s.callers[d] == t.callers[d]) {
      if d != c {
        assert d in s.callers <==> d in s.callers - {c};
        assert d in t.callers <==> d in t.callers - {c};
      }
    }
  }

  lemma OthersOk<G>(s: State<G>, t: State<G>, c: nat, session: string, other: string)
    requires Inv(s) && other != session && other in s.gate.locks && session in s.gate.locks
    requires c in s.callers ==> s.callers[c].session == session
    requires c in t.callers ==> t.callers[c].session == session
    requires s.callers - {c} == t.callers - {c}
    requires other in t.gate.locks && t.gate.locks[other] == s.gate.locks[other]
    requires t.gate.guards - {s.gate.locks[session]} == s.gate.guards - {s.gate.locks[session]}
    ensures GuardOk(t, other)
  {
    hide Users, Holders;
    OtherSessions(s, t, c, session, other);
    assert GuardOk(s, other);
    var g := s.gate.locks[other];
    assert g != s.gate.locks[session];
    assert g in t.gate.guards - {s.gate.locks[session]};
    assert (t.gate.guards - {s.gate.locks[session]})[g] == (s.gate.guards - {s.gate.locks[session]})[g];
  }

  lemma CallersOk<G>(s: State<G>, t: State<G>, c: nat)
    requires forall d :: d in s.callers ==> CallerOk(s, d)
    requires s.callers - {c} == t.callers - {c} && (c in t.callers ==> CallerOk(t, c))
    requires forall session :: session in s.gate.locks && (exists d :: d in s.callers && d != c && s.callers[d].session == session) ==>
               session in t.gate.locks && t.gate.locks[session] == s.gate.locks[session]
    ensures forall d :: d in t.callers ==> CallerOk(t, d)
  {
    forall d | d in t.callers ensures CallerOk(t, d) {
      if d != c {
        assert d in t.callers - {c};
        assert (t.callers - {c})[d] == (s.callers - {c})[d];
        assert CallerOk(s, d);
      }
    }
  }

  /** A caller's step on its own session keeps the invariant if it leaves that session right. */
  lemma OwnStepKeeps<G>(s: State<G>, t: State<G>, c: nat, session: string)
    requires Inv(s) && session in s.gate.locks
    requires c in s.callers ==> s.callers[c].session == session
    requires c in t.callers ==> t.callers[c].session == session && CallerOk(t, c)
    requires s.callers - {c} == t.callers - {c}
    requires t.gate.guards - {s.gate.locks[session]} == s.gate.guards - {s.gate.locks[session]}
    requires t.gate.locks == s.gate.locks || (t.gate.locks == s.gate.locks - {session} && Users(t, session) == {})
    requires session in t.gate.locks ==> GuardOk(t, session)
    ensures Inv(t)
  {
    hide Holders, GuardOk;
    forall other | other in t.gate.locks ensures GuardOk(t, other) {
      if other != session { OthersOk(s, t, c, session, other); }
    }
    forall other | other in s.gate.locks && (exists d :: d in s.callers && d != c && s.callers[d].session == other)
      ensures other in t.gate.locks {
      var d :| d in s.callers && d != c && s.callers[d].session == other;
      assert d in t.callers - {c};
      assert other == session ==> d in Users(t, session);
    }
    CallersOk(s, t, c);
  }

  function One(b: bool): nat { if b then 1 else 0 }

  lemma Exchange(a: set<nat>, c: nat, b: set<nat>, joins: bool)
    requires b == a - {c} + (if joins then {c} else {})
    ensures |b| + One(c in a) == |a| + One(joins)
  {}

  lemma OwnCounts<G>(s: State<G>, t: State<G>, c: nat, session: string)
    requires c in s.callers ==> s.callers[c].session == session
    requires c in t.callers ==> t.callers[c].session == session
    requires s.callers - {c} == t.callers - {c}
    ensures |Users(t, session)| + One(c in s.callers) == |Users(s, session)| + One(c in t.callers)
    ensures |Holders(t, session)| + One(In(s, c, Holding)) == |Holders(s, session)| + One(In(t, c, Holding))
  {
    hide Users, Holders;
    OwnSession(s, t, c, session);
    Exchange(Users(s, session), c, Users(t, session), c in t.callers);
    Exchange(Holders(s, session), c, Holders(t, session), In(t, c, Holding));
  }

  lemma MovedGuard<G>(s: State<G>, t: State<G>, c: nat, session: string)
    requires c in s.callers && s.callers[c].session == session && c in t.callers && t.callers[c].session == session
    requires s.callers - {c} == t.callers - {c}
    requires t.gate.locks == s.gate.locks && session in s.gate.locks && GuardOk(s, session)
    requires s.gate.locks[session] in t.gate.guards
    requires t.gate.guards[s.gate.locks[session]].refs == s.gate.guards[s.gate.locks[session]].refs
    requires t.gate.guards[s.gate.locks[session]].tokens + One(In(t, c, Holding))
          == s.gate.guards[s.gate.locks[session]].tokens + One(In(s, c, Holding))
    ensures GuardOk(t, session)
  {
    hide Users, Holders;
    OwnCounts(s, t, c, session);
  }

  /** Steps that only move tokens between the channel and one caller. */
  lemma MoveKeeps<G>(s: State<G>, t: State<G>, c: nat)
    requires Inv(s) && c in s.callers && c in t.callers
    requires t.gate.locks == s.gate.locks
    requires t.callers[c] == s.callers[c].(phase := t.callers[c].phase)
    requires s.callers - {c} == t.callers - {c}
    requires t.gate.guards - {s.callers[c].guard} == s.gate.guards - {s.callers[c].guard}
    requires s.callers[c].guard in s.gate.guards && s.callers[c].guard in t.gate.guards
    requires t.gate.guards[s.callers[c].guard].refs == s.gate.guards[s.callers[c].guard].refs
    requires t.gate.guards[s.callers[c].guard].tokens + One(In(t, c, Holding))
          == s.gate.guards[s.callers[c].guard].tokens + One(In(s, c, Holding))
    ensures Inv(t)
  {
    hide Users, Holders, Distinct, GuardOk;
    var session := s.callers[c].session;
    assert CallerOk(s, c);
    MovedGuard(s, t, c, session);
    OwnStepKeeps(s, t, c, session);
  }

  lemma RetainKeeps<G>(s: State<G>, c: nat, session: string, made: G)
    requires Inv(s) && Enabled(s, Retain(c, session, made))
    ensures Inv(Next(s, Retain(c, session, made)))
  {
    hide Inv;
    if session in s.gate.locks { JoinKeeps(s, c, session, made); } else { CreateKeeps(s, c, session, made); }
  }

  lemma JoinedGuard<G>(s: State<G>, c: nat, session: string, made: G)
    requires Enabled(s, Retain(c, session, made)) && session in s.gate.locks && GuardOk(s, session)
    ensures GuardOk(Next(s, Retain(c, session, made)), session)
  {
    hide Users, Holders;
    OwnCounts(s, Next(s, Retain(c, session, made)), c, session);
  }

  lemma JoinKeeps<G>(s: State<G>, c: nat, session: string, made: G)
    requires Inv(s) && Enabled(s, Retain(c, session, made)) && session in s.gate.locks
    ensures Inv(Next(s, Retain(c, session, made)))
  {
    hide Users, Holders, Distinct, GuardOk;
    JoinedGuard(s, c, session, made);
    OwnStepKeeps(s, Next(s, Retain(c, session, made)), c, session);
  }

  lemma CreateKeeps<G>(s: State<G>, c: nat, session: string, made: G)
    requires Inv(s) && Enabled(s, Retain(c, session, made)) && session !in s.gate.locks
    ensures Inv(Next(s, Retain(c, session, made)))
  {
    hide Users, Holders;
    var t := Next(s, Retain(c, session, made));
    OwnCounts(s, t, c, session);
    NoUsers(s, session);
    forall other | other in t.gate.locks ensures GuardOk(t, other) {
      if other != session {
        OtherSessions(s, t, c, session, other);
        assert GuardOk(s, other);
      }
    }
    forall a | a in s.gate.locks ensures s.gate.locks[a] != made { assert GuardOk(s, a); }
    CallersOk(s, t, c);
  }

  lemma NoUsers<G>(s: State<G>, session: string)
    requires Inv(s) && session !in s.gate.locks
    ensures Users(s, session) == {} && Holders(s, session) == {}
  {}

  lemma ReleasedGuard<G>(s: State<G>, c: nat)
    requires Enabled(s, Release(c)) && CallerOk(s, c) && GuardOk(s, s.callers[c].session)
    ensures var t, session := Next(s, Release(c)), s.callers[c].session;
            if session in t.gate.locks then GuardOk(t, session) else Users(t, session) == {}
  {
    hide Users, Holders;
    var t, session := Next(s, Release(c)), s.callers[c].session;
    OwnCounts(s, t, c, session);
  }

  lemma ReleaseKeeps<G>(s: State<G>, c: nat)
    requires Inv(s) && Enabled(s, Release(c))
    ensures Inv(Next(s, Release(c)))
  {
    hide Users, Holders, Distinct, GuardOk;
    assert CallerOk(s, c);
    ReleasedGuard(s, c);
    OwnStepKeeps(s, Next(s, Release(c)), c, s.callers[c].session);
  }

  /** Every atomic step of every caller keeps the invariant. */
  lemma StepKeeps<G>(s: State<G>, step: Step<G>)
    requires Inv(s) && Enabled(s, step)
    ensures Inv(Next(s, step))
  {
    hide Inv;
    match step
    case Retain(c, session, made) => RetainKeeps(s, c, session, made);
    case Release(c) => ReleaseKeeps(s, c);
    case Take(c) => TokenStepKeeps(s, step);
    case GiveUp(c) => TokenStepKeeps(s, step);
    case PutBack(c) => TokenStepKeeps(s, step);
  }

  lemma TokenStepKeeps<G>(s: State<G>, step: Step<G>)
    requires Inv(s) && Enabled(s, step) && (step.Take? || step.GiveUp? || step.PutBack?)
    ensures Inv(Next(s, step))
  {
    hide Users, Holders, Distinct;
    assert CallerOk(s, step.c) && GuardOk(s, s.callers[step.c].session);
    MoveKeeps(s, Next(s, step), step.c);
  }

  // ---- runs --------------------------------------------------------------

  ghost predicate Runs<G>(s: State<G>, steps: seq<Step<G>>, t: State<G>)
    decreases |steps|
  {
    if steps == [] then t == s else Enabled(s, steps[0]) && Runs(Next(s, steps[0]), steps[1..], t)
  }

  lemma {:induction false} RunKeeps<G>(s: State<G>, steps: seq<Step<G>>, t: State<G>)
    requires Inv(s) && Runs(s, steps, t)
    ensures Inv(t)
    decreases |steps|
  {
    hide Inv;
    if steps != [] {
      StepKeeps(s, steps[0]);
      RunKeeps(Next(s, steps[0]), steps[1..], t);
    }
  }

  ghost predicate MutualExclusion<G>(s: State<G>) {
    forall c, d :: In(s, c, Holding) && In(s, d, Holding) && s.callers[c].session == s.callers[d].session ==> c == d
  }

  /** Over every interleaving from an empty gate: one holder per session, guards are in the table
      exactly while in use, and neither a send nor a lone waiter is ever stuck. */
  lemma PerSessionExclusion<G>(steps: seq<Step<G>>, t: State<G>)
    requires Runs(State(Gate(map[], map[]), map[]), steps, t)
    ensures Inv(t) && MutualExclusion(t)
    ensures forall session :: session in t.gate.locks <==> Users(t, session) != {}
    ensures forall c, session, made :: c !in t.callers && made !in t.gate.guards ==> Enabled(t, Retain(c, session, made))
    ensures forall c :: In(t, c, Holding) ==> Enabled(t, PutBack(c))
    ensures forall c :: In(t, c, Waiting) && Holders(t, t.callers[c].session) == {} ==> Enabled(t, Take(c))
  {
    RunKeeps(State(Gate(map[], map[]), map[]), steps, t);
    OneHolder(t);
    LocksHaveGuards(t);
    forall session ensures session in t.gate.locks <==> Users(t, session) != {} {
      if session in t.gate.locks { assert GuardOk(t, session); } else { NoUsers(t, session); }
    }
    forall c | In(t, c, Holding) ensures Enabled(t, PutBack(c)) {
      assert CallerOk(t, c) && GuardOk(t, t.callers[c].session);
      assert c in Holders(t, t.callers[c].session);
    }
    forall c | In(t, c, Waiting) && Holders(t, t.callers[c].session) == {} ensures Enabled(t, Take(c)) {
      assert CallerOk(t, c) && GuardOk(t, t.callers[c].session);
    }
  }

  lemma OneHolder<G>(t: State<G>)
    requires Inv(t)
    ensures MutualExclusion(t)
  {
    forall c, d | In(t, c, Holding) && In(t, d, Holding) && t.callers[c].session == t.callers[d].session ensures c == d {
      var session := t.callers[c].session;
      assert CallerOk(t, c) && GuardOk(t, session);
      if c != d {
        assert {c, d} <= Holders(t, session);
        SubsetSize({c, d}, Holders(t, session));
        assert false;
      }
    }
  }

  // ---- the gate object ---------------------------------------------------

  class SessionGateLock {
    var tokens: nat
    var refs: int

    constructor ()
      ensures tokens == 1 && refs == 0
    {
      tokens := 1;
      refs := 0;
    }
  }

  class SessionGate {
    var locks: map<string, SessionGateLock>
    /** Every guard this gate has made. */
    ghost var made: set<SessionGateLock>

    constructor ()
      ensures Valid() && View() == Gate(map[], map[]) && made == {}
    {
      locks := map[];
      made := {};
    }

    ghost predicate Valid()
      reads this
    {
      locks.Values <= made
    }

    ghost function View(): Gate<SessionGateLock>
      reads this, made
    {
      Gate(locks, map g | g in made :: Guard(g.tokens, g.refs))
    }

    method Retain(session: string) returns (guard: SessionGateLock)
      requires Valid()
      modifies this, made
      ensures Valid() && session in locks && guard == locks[session]
      ensures session in old(locks) ==> made == old(made)
      ensures session !in old(locks) ==> fresh(guard) && made == old(made) + {guard}
      ensures View() == Retained(old(View()), session, guard)
    {
      if session in locks {
        guard := locks[session];
        assert guard in locks.Values;
      } else {
        guard := new SessionGateLock();
        locks := locks[session := guard];
        made := made + {guard};
      }
      guard.refs := guard.refs + 1;
      assert View().guards == Retained(old(View()), session, guard).guards;
    }

    method Receive(guard: SessionGateLock)
      requires Valid() && guard in made && guard.tokens > 0
      modifies guard
      ensures Valid() && View() == Received(old(View()), guard)
    {
      guard.tokens := guard.tokens - 1;
    }

    method Send(guard: SessionGateLock)
      requires Valid() && guard in made && guard.tokens < 1
      modifies guard
      ensures Valid() && View() == Sent(old(View()), guard)
    {
      guard.tokens := guard.tokens + 1;
    }

    method Release(session: string, guard: SessionGateLock)
      requires Valid() && guard in made
      modifies this, guard
      ensures Valid() && made == old(made)
      ensures View() == Released(old(View()), session, guard)
    {
      if session !in locks || locks[session] != guard { return; }
      guard.refs := guard.refs - 1;
      if guard.refs == 0 { locks := locks - {session}; }
      assert View().guards == Released(old(View()), session, guard).guards;
    }
  }
}
