/** When a reload gives back the very events that were appended, and not only their compact form:
    the journal stores what the encoder writes, and the encoder compacts payloads. */
module JournalExact {
  import opened Outcome
  import opened Text
  import opened EventLog
  import opened Journal
  import opened JournalRecovery

  // ---- the exact condition -------------------------------------------------

  ghost predicate Compact(codec: Codec, log: seq<Event>) {
    forall i :: 0 <= i < |log| ==> codec.canon(log[i]) == log[i]
  }

  /** Every written event is in the stream that replay builds for its session. */
  lemma {:induction false} EventIsReplayed(base: Streams, log: seq<Event>, accepts: Accepts, i: nat)
    requires Genuine(base, log, accepts) && i < |log|
    ensures log[i].session in Replay(base, log) && log[i] in Replay(base, log)[log[i].session].events
  {
    var init, e := log[..|log| - 1], log[|log| - 1];
    if i < |init| { EventIsReplayed(base, init, accepts, i); }
    var before := StreamOf(Replay(base, init), e.session).events;
    var after := Replay(base, log)[e.session].events;
    assert after == before + [e] && after[|before|] == e;
    assert forall x :: x in before ==> x in after;
  }

  lemma SameIdSameEvent(session: string, stream: Stream, accepts: Accepts, e: Event, f: Event)
    requires Valid(session, stream, accepts) && e in stream.events && f in stream.events && e.id == f.id
    ensures e == f
  {}

  lemma CompactIsCanon(codec: Codec, log: seq<Event>)
    requires Compact(codec, log)
    ensures Canon(codec, log) == log
  {}

  /** Replaying the compacted events gives the same streams exactly if all events were compact. */
  lemma ReplayExactIff(c: Setting, log: seq<Event>)
    requires Proper(c) && Genuine(c.base, log, c.accepts)
    ensures Replay(c.base, Canon(c.codec, log)) == Replay(c.base, log) <==> Compact(c.codec, log)
  {
    hide Genuine, Replay, Faithful, AllValid;
    var canon := Canon(c.codec, log);
    GenuineIsValid(c.base, log, c.accepts);
    GenuineCanon(c.codec, c.accepts, c.base, log);
    if Compact(c.codec, log) { CompactIsCanon(c.codec, log); }
    if Replay(c.base, canon) == Replay(c.base, log) {
      forall i | 0 <= i < |log| ensures c.codec.canon(log[i]) == log[i] { ReplayedOnce(c, log, i); }
    }
  }

  lemma ReplayedOnce(c: Setting, log: seq<Event>, i: nat)
    requires Proper(c) && Genuine(c.base, log, c.accepts) && Genuine(c.base, Canon(c.codec, log), c.accepts)
    requires AllValid(Replay(c.base, log), c.accepts) && i < |log|
    requires Replay(c.base, Canon(c.codec, log)) == Replay(c.base, log)
    ensures c.codec.canon(log[i]) == log[i]
  {
    hide Genuine, Replay, Valid;
    EventIsReplayed(c.base, log, c.accepts, i);
    EventIsReplayed(c.base, Canon(c.codec, log), c.accepts, i);
    assert Kept(log[i], c.codec.canon(log[i]));
    var session := log[i].session;
    SameIdSameEvent(session, Replay(c.base, log)[session], c.accepts, log[i], c.codec.canon(log[i]));
  }

  /** In every crashed state of every run: the reload gives the streams of the events as they were
      appended if and only if each of them was compact already. */
  lemma ReloadGivesAppendedIff(c: Setting, steps: seq<Step>, t: State, streams: Streams, kept: seq<byte>)
    requires Proper(c) && Runs(c, FRESH, steps, t) && Enabled(c, t, Reopen(streams, kept))
    ensures streams == Replay(c.base, t.log) <==> Compact(c.codec, t.log)
  {
    hide Runs, Genuine, Proper, OnDisk, InMemory, Loads, Replay;
    FreshInv(c);
    RunKeeps(c, FRESH, steps, t);
    ReopenKeeps(c, t, streams, kept);
    ReplayExactIff(c, t.log);
  }

  // ---- what memory held ------------------------------------------------------

  /** The logged events as memory holds them: as appended, or compacted by an earlier reload. */
  ghost predicate Holds(c: Setting, s: State, held: seq<Event>) {
    s.memory == Some(Replay(c.base, held)) && Genuine(c.base, held, c.accepts)
    && Canon(c.codec, held) == Canon(c.codec, s.log)
  }

  ghost predicate HoldsSome(c: Setting, s: State) { s.memory.Some? ==> exists held :: Holds(c, s, held) }

  lemma CanonTwice(codec: Codec, accepts: Accepts, log: seq<Event>)
    requires Faithful(codec, accepts)
    ensures Canon(codec, Canon(codec, log)) == Canon(codec, log)
  {}

  lemma ReopenHolds(c: Setting, s: State, streams: Streams, kept: seq<byte>)
    requires Proper(c) && Inv(c, s) && Enabled(c, s, Reopen(streams, kept))
    ensures HoldsSome(c, Next(c, s, Reopen(streams, kept)))
  {
    hide Genuine, Replay, Faithful, AllValid, OnDisk, InMemory, Loads;
    ReopenKeeps(c, s, streams, kept);
    GenuineCanon(c.codec, c.accepts, c.base, s.log);
    CanonTwice(c.codec, c.accepts, s.log);
    assert Holds(c, Next(c, s, Reopen(streams, kept)), Canon(c.codec, s.log));
  }

  lemma AppendHolds(c: Setting, s: State, session: string, event: Runtime, now: int)
    requires Proper(c) && HoldsSome(c, s) && Enabled(c, s, Step.Append(session, event, now))
    ensures HoldsSome(c, Next(c, s, Step.Append(session, event, now)))
  {
    hide Genuine, Replay, Faithful, AllValid, Line;
    var t := Next(c, s, Step.Append(session, event, now));
    if t != s {
      var held :| Holds(c, s, held);
      var a := Attempt(s, session, event, now).value;
      AppendIsReplay(s.memory.value, session, event, now, c.accepts);
      hide Appendable, Attempt, ReplayOne;
      GenuineSnoc(c.base, held, a.event, c.accepts);
      ReplaySnoc(c.base, held, a.event);
      CanonSnoc(c.codec, held, a.event);
      CanonSnoc(c.codec, s.log, a.event);
      assert Holds(c, t, held + [a.event]);
    }
  }

  lemma {:induction false} RunHolds(c: Setting, s: State, steps: seq<Step>, t: State)
    requires Proper(c) && Inv(c, s) && HoldsSome(c, s) && Runs(c, s, steps, t)
    ensures Inv(c, t) && HoldsSome(c, t)
    decreases |steps|
  {
    hide Inv, Proper, HoldsSome;
    if steps != [] {
      var step := steps[0];
      StepKeeps(c, s, step);
      match step {
        case Append(session, event, now) => AppendHolds(c, s, session, event, now);
        case Reopen(streams, kept) => ReopenHolds(c, s, streams, kept);
        case Crash => NothingHeld(c, Next(c, s, step));
        case CrashInAppend(_, _, _, _) => NothingHeld(c, Next(c, s, step));
      }
      RunHolds(c, Next(c, s, step), steps[1..], t);
    }
  }

  lemma NothingHeld(c: Setting, s: State)
    requires s.memory.None?
    ensures HoldsSome(c, s)
  {}

  /** A crash and a reload give back exactly the streams memory held if and only if memory held
      every logged event in its compact form. */
  lemma CrashKeepsMemoryIff(c: Setting, s: State, held: seq<Event>, streams: Streams, kept: seq<byte>)
    requires Proper(c) && Inv(c, s) && Holds(c, s, held)
    requires Enabled(c, Next(c, s, Crash), Reopen(streams, kept))
    ensures streams == s.memory.value <==> Compact(c.codec, held)
  {
    hide Genuine, Replay, Proper, OnDisk, InMemory, Loads;
    CrashKeeps(c, s);
    ReopenKeeps(c, Next(c, s, Crash), streams, kept);
    ReplayExactIff(c, held);
  }

  /** The same over every run: such a `held` exists wherever the store is open. */
  lemma ReloadKeepsMemoryIff(c: Setting, steps: seq<Step>, s: State, streams: Streams, kept: seq<byte>)
    requires Proper(c) && Runs(c, FRESH, steps, s) && s.memory.Some?
    requires Enabled(c, Next(c, s, Crash), Reopen(streams, kept))
    ensures exists held :: Holds(c, s, held) && (streams == s.memory.value <==> Compact(c.codec, held))
  {
    hide Runs, Proper, Holds, Inv, Enabled, Next;
    FreshInv(c);
    NothingHeld(c, FRESH);
    RunHolds(c, FRESH, steps, s);
    var held :| Holds(c, s, held);
    CrashKeepsMemoryIff(c, s, held, streams, kept);
  }

  // ---- an input where the reload differs -----------------------------------

  lemma RunOne(c: Setting, s: State, step: Step, steps: seq<Step>, t: State)
    requires Enabled(c, s, step) && Runs(c, Next(c, s, step), steps, t)
    ensures Runs(c, s, [step] + steps, t)
  {
    assert ([step] + steps)[1..] == steps;
  }

  /** A store that is opened and appends one event. */
  ghost function OneAppended(c: Setting, session: string, event: Runtime, now: int): (State, Event)
    requires FirstAppend(c, session, event, now).Ok?
  {
    var a := FirstAppend(c, session, event, now).value;
    (State(Line(c.codec, a.event), Some(c.base[session := a.stream]), [a.event], [a.event]), a.event)
  }

  function FirstAppend(c: Setting, session: string, event: Runtime, now: int): Result<Appended, Error> {
    EventLog.Append(StreamOf(c.base, session), session, event, now)
  }

  lemma FirstAppendRuns(c: Setting, session: string, event: Runtime, now: int)
    requires Proper(c) && c.accepts(event) && now != 0
    requires FirstAppend(c, session, event, now).Ok? && FirstAppend(c, session, event, now).value.changed
    ensures Runs(c, FRESH, [Reopen(c.base, [])] + ([Step.Append(session, event, now)] + []), OneAppended(c, session, event, now).0)
    ensures Holds(c, OneAppended(c, session, event, now).0, [OneAppended(c, session, event, now).1])
  {
    var s1, s2, e := State([], Some(c.base), [], []), OneAppended(c, session, event, now).0, OneAppended(c, session, event, now).1;
    FreshInv(c);
    ReloadExact(c, FRESH);
    assert Canon(c.codec, []) == [] && Replay(c.base, []) == c.base;
    assert Enabled(c, FRESH, Reopen(c.base, [])) && Next(c, FRESH, Reopen(c.base, [])) == s1;
    assert [] + Line(c.codec, e) == Line(c.codec, e) && [] + [e] == [e];
    assert Enabled(c, s1, Step.Append(session, event, now)) && Next(c, s1, Step.Append(session, event, now)) == s2;
    AppendIsReplay(c.base, session, event, now, c.accepts);
    ReplaySnoc(c.base, [], e);
    GenuineSnoc(c.base, [], e, c.accepts);
    hide Next, Enabled, Proper, Loads, Genuine, Replay;
    assert Runs(c, s2, [], s2);
    RunOne(c, s1, Step.Append(session, event, now), [], s2);
    RunOne(c, FRESH, Reopen(c.base, []), [Step.Append(session, event, now)] + [], s2);
  }

  /** Appending an event that is not compact to a fresh store, then crashing and reloading: the
      reload succeeds and differs from what memory held. */
  lemma ReloadDiffers(c: Setting, session: string, event: Runtime, now: int)
    requires Proper(c) && c.accepts(event) && now != 0
    requires FirstAppend(c, session, event, now).Ok? && FirstAppend(c, session, event, now).value.changed
    requires var e := OneAppended(c, session, event, now).1; c.codec.canon(e) != e
    ensures var s := OneAppended(c, session, event, now).0;
            && Runs(c, FRESH, [Reopen(c.base, [])] + ([Step.Append(session, event, now)] + []), s)
            && (exists streams, kept :: Enabled(c, Next(c, s, Crash), Reopen(streams, kept)))
            && (forall streams, kept :: Enabled(c, Next(c, s, Crash), Reopen(streams, kept)) ==> streams != s.memory.value)
  {
    var s, e := OneAppended(c, session, event, now).0, OneAppended(c, session, event, now).1;
    FirstAppendRuns(c, session, event, now);
    hide FirstAppend, OneAppended, Runs, Proper, Holds, Genuine, Replay;
    FreshInv(c);
    assert Inv(c, s) by { RunKeeps(c, FRESH, [Reopen(c.base, [])] + ([Step.Append(session, event, now)] + []), s); }
    hide Inv, Loads;
    CrashKeeps(c, s);
    ReloadExact(c, Next(c, s, Crash));
    assert Enabled(c, Next(c, s, Crash), Reopen(Replay(c.base, Canon(c.codec, s.log)), Lines(c.codec, s.log)));
    forall streams, kept | Enabled(c, Next(c, s, Crash), Reopen(streams, kept)) ensures streams != s.memory.value {
      CrashKeepsMemoryIff(c, s, [e], streams, kept);
      assert [e][0] == e;
    }
  }

  // ---- a codec that compacts -------------------------------------------------

  function Ones(n: nat): seq<byte> { if n == 0 then [] else [1] + Ones(n - 1) }

  /** Numbers in unary, each closed by a zero byte. */
  function Unary(ns: seq<nat>): seq<byte> { if ns == [] then [] else Ones(ns[0]) + [0] + Unary(ns[1..]) }

  function Spell(s: string): seq<nat> { [|s|] + seq(|s|, i requires 0 <= i < |s| => s[i] as nat) }

  function Fields(e: Event): seq<nat> {
    [e.sequence, e.generation, if e.createdAt < 0 then 1 else 0, if e.createdAt < 0 then -e.createdAt else e.createdAt]
    + (Spell(e.session) + (Spell(e.id) + (Spell(e.name) + (Spell(e.payload) + []))))
  }

  /** Compaction that drops blanks. */
  function DropBlanks(s: string): string {
    if s == [] then [] else (if s[0] == ' ' then [] else [s[0]]) + DropBlanks(s[1..])
  }

  function Squeeze(e: Event): Event { e.(payload := DropBlanks(e.payload)) }

  function WriteEvent(e: Event): seq<byte> { Unary(Fields(Squeeze(e))) }

  ghost function ReadEvent(line: seq<byte>): Option<Event> {
    if e :| line == WriteEvent(e) + [NEWLINE] then Some(Squeeze(e)) else None
  }

  lemma {:induction false} OnesEnd(m: nat, n: nat, x: seq<byte>, y: seq<byte>)
    requires Ones(m) + [0] + x == Ones(n) + [0] + y
    ensures m == n && x == y
  {
    var a, b := Ones(m) + [0] + x, Ones(n) + [0] + y;
    assert a[0] == (if m == 0 then 0 else 1) && b[0] == (if n == 0 then 0 else 1);
    if m == 0 {
      assert a[1..] == x && b[1..] == y;
    } else {
      assert a[1..] == Ones(m - 1) + [0] + x && b[1..] == Ones(n - 1) + [0] + y;
      OnesEnd(m - 1, n - 1, x, y);
    }
  }

  lemma {:induction false} UnaryInjective(a: seq<nat>, b: seq<nat>)
    requires Unary(a) == Unary(b)
    ensures a == b
  {
    if a != [] && b != [] {
      OnesEnd(a[0], b[0], Unary(a[1..]), Unary(b[1..]));
      UnaryInjective(a[1..], b[1..]);
      assert a == [a[0]] + a[1..] && b == [b[0]] + b[1..];
    }
  }

  lemma {:induction false} UnaryHasNoNewline(ns: seq<nat>)
    ensures NEWLINE !in Unary(ns)
  {
    if ns != [] {
      UnaryHasNoNewline(ns[1..]);
      OnesHaveNoNewline(ns[0]);
    }
  }

  lemma {:induction false} OnesHaveNoNewline(n: nat)
    ensures NEWLINE !in Ones(n)
  {
    if n > 0 { OnesHaveNoNewline(n - 1); }
  }

  lemma SpellPrefix(s: string, t: string, x: seq<nat>, y: seq<nat>)
    requires Spell(s) + x == Spell(t) + y
    ensures s == t && x == y
  {
    var a, b := Spell(s) + x, Spell(t) + y;
    assert a[0] == |s| && b[0] == |t|;
    assert a[|s| + 1..] == x && b[|s| + 1..] == y;
    forall i | 0 <= i < |s| ensures s[i] == t[i] {
      assert a[i + 1] == s[i] as nat && b[i + 1] == t[i] as nat;
    }
  }

  lemma FieldsInjective(e: Event, f: Event)
    requires Fields(e) == Fields(f)
    ensures e == f
  {
    hide Spell;
    var a, b := Fields(e), Fields(f);
    assert a[0] == b[0] && a[1] == b[1] && a[2] == b[2] && a[3] == b[3];
    assert a[4..] == b[4..];
    SpellPrefix(e.session, f.session, Spell(e.id) + (Spell(e.name) + (Spell(e.payload) + [])), Spell(f.id) + (Spell(f.name) + (Spell(f.payload) + [])));
    SpellPrefix(e.id, f.id, Spell(e.name) + (Spell(e.payload) + []), Spell(f.name) + (Spell(f.payload) + []));
    SpellPrefix(e.name, f.name, Spell(e.payload) + [], Spell(f.payload) + []);
    SpellPrefix(e.payload, f.payload, [], []);
  }

  lemma WriteDetermines(e: Event, f: Event)
    requires WriteEvent(e) + [NEWLINE] == WriteEvent(f) + [NEWLINE]
    ensures Squeeze(e) == Squeeze(f)
  {
    hide Unary, Fields, Squeeze;
    var a, b := WriteEvent(e) + [NEWLINE], WriteEvent(f) + [NEWLINE];
    assert a[..|a| - 1] == WriteEvent(e) && b[..|b| - 1] == WriteEvent(f);
    UnaryInjective(Fields(Squeeze(e)), Fields(Squeeze(f)));
    FieldsInjective(Squeeze(e), Squeeze(f));
  }

  lemma {:induction false} DropBlanksTwice(s: string)
    ensures DropBlanks(DropBlanks(s)) == DropBlanks(s)
  {
    if s != [] {
      DropBlanksTwice(s[1..]);
      if s[0] != ' ' { assert DropBlanks(s)[1..] == DropBlanks(s[1..]); } else { assert DropBlanks(s) == DropBlanks(s[1..]); }
    }
  }

  ghost function SqueezingCodec(): Codec { Codec(e => WriteEvent(e), line => ReadEvent(line), e => Squeeze(e)) }

  /** What is asked of a codec can be met by one that changes events. */
  lemma SqueezingIsFaithful()
    ensures Faithful(SqueezingCodec(), _ => true)
  {
    hide Unary, Fields, WriteEvent, ReadEvent;
    var codec := SqueezingCodec();
    forall e ensures NEWLINE !in codec.encode(e) && codec.decode(codec.encode(e) + [NEWLINE]) == Some(codec.canon(e)) {
      SqueezingReadsBack(e);
    }
    forall e ensures codec.canon(codec.canon(e)) == codec.canon(e) { DropBlanksTwice(e.payload); }
  }

  lemma SqueezingReadsBack(e: Event)
    ensures NEWLINE !in WriteEvent(e) && ReadEvent(WriteEvent(e) + [NEWLINE]) == Some(Squeeze(e))
  {
    hide Unary, Fields, Squeeze;
    assert NEWLINE !in WriteEvent(e) by { UnaryHasNoNewline(Fields(Squeeze(e))); }
    var line := WriteEvent(e) + [NEWLINE];
    hide WriteEvent;
    forall f | line == WriteEvent(f) + [NEWLINE] ensures Squeeze(f) == Squeeze(e) { WriteDetermines(e, f); }
  }

  /** A concrete failure: an event whose payload is one blank does not come back as it was. */
  lemma BlankPayloadIsNotKept()
    ensures var c := Setting(SqueezingCodec(), _ => true, map[]);
            var event := Runtime("e", "n", 0, " ");
            && Proper(c) && FirstAppend(c, "s", event, 1).Ok?
            && var s := OneAppended(c, "s", event, 1).0;
            && Runs(c, FRESH, [Reopen(c.base, [])] + ([Step.Append("s", event, 1)] + []), s)
            && (exists streams, kept :: Enabled(c, Next(c, s, Crash), Reopen(streams, kept)))
            && (forall streams, kept :: Enabled(c, Next(c, s, Crash), Reopen(streams, kept)) ==> streams != s.memory.value)
  {
    var c := Setting(SqueezingCodec(), _ => true, map[]);
    var event := Runtime("e", "n", 0, " ");
    assert Proper(c) by { SqueezingIsFaithful(); }
    assert FirstAppend(c, "s", event, 1) == Ok(Appended(Stream(2, [] + [Created(1, "s", event, 1)]), Created(1, "s", event, 1), true));
    assert DropBlanks(" ") == [] by { assert " "[1..] == []; }
    hide Proper, Runs, Enabled, Next, FirstAppend;
    ReloadDiffers(c, "s", event, 1);
  }

  // ---- replaying what is known ----------------------------------------------------

  ghost predicate KnownIn(streams: Streams, e: Event) { e.session in streams && e.id in Ids(streams[e.session].events) }

  lemma KnownStays(streams: Streams, e: Event, f: Event)
    requires KnownIn(streams, e)
    ensures KnownIn(ReplayOne(streams, f), e)
  {
    var before, after := streams[e.session].events, ReplayOne(streams, f)[e.session].events;
    var i :| 0 <= i < |before| && before[i].id == e.id;
    assert after[i] == before[i];
  }

  lemma ReplayedIsKnown(streams: Streams, e: Event)
    ensures KnownIn(ReplayOne(streams, e), e)
  {
    var before, after := StreamOf(streams, e.session).events, ReplayOne(streams, e)[e.session].events;
    if e.id !in Ids(before) { assert after[|before|] == e; }
  }

  lemma {:induction false} ReplayKnows(base: Streams, log: seq<Event>, i: nat)
    requires i < |log|
    ensures KnownIn(Replay(base, log), log[i])
  {
    hide KnownIn, ReplayOne;
    var init, e := log[..|log| - 1], log[|log| - 1];
    if i < |init| {
      ReplayKnows(base, init, i);
      KnownStays(Replay(base, init), log[i], e);
    } else {
      ReplayedIsKnown(Replay(base, init), e);
    }
  }

  lemma {:induction false} ReplayOfKnown(streams: Streams, log: seq<Event>)
    requires forall i :: 0 <= i < |log| ==> KnownIn(streams, log[i])
    ensures Replay(streams, log) == streams
  {
    if log != [] { ReplayOfKnown(streams, log[..|log| - 1]); }
  }

  /** Replaying a journal over streams that already hold its events changes nothing. */
  lemma ReplayTwice(base: Streams, log: seq<Event>)
    ensures Replay(Replay(base, log), log) == Replay(base, log)
  {
    hide KnownIn, Replay;
    forall i | 0 <= i < |log| ensures KnownIn(Replay(base, log), log[i]) { ReplayKnows(base, log, i); }
    ReplayOfKnown(Replay(base, log), log);
  }
}
