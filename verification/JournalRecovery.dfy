/** The file event store over its whole life: appends, crashes at any byte of the last write, and
    reloads (`gateway/event_store_file.go`). */
module JournalRecovery {
  import opened Outcome
  import opened Text
  import opened EventLog
  import opened Journal

  // ---- the store ---------------------------------------------------------

  datatype LoadError = Undecodable | InvalidStream(session: string)

  /** What a reload yields: the streams, started and valid, and the bytes it keeps. */
  ghost predicate Loads(codec: Codec, accepts: Accepts, base: Streams, bytes: seq<byte>, streams: Streams, kept: seq<byte>) {
    var p := Parse(codec, bytes);
    p.Some? && AllValid(Replay(base, p.value.events), accepts)
    && streams == Started(Replay(base, p.value.events)) && kept == bytes[..p.value.length]
  }

  ghost predicate Loadable(codec: Codec, accepts: Accepts, base: Streams, bytes: seq<byte>) {
    var p := Parse(codec, bytes);
    p.Some? && AllValid(Replay(base, p.value.events), accepts)
  }

  /** The complete lines before `offset` decode to `done`; the rest of the file decides the rest. */
  ghost predicate Read(codec: Codec, bytes: seq<byte>, done: seq<Event>, offset: nat) {
    offset <= |bytes| &&
    match Parse(codec, bytes[offset..])
    case None => Parse(codec, bytes) == None
    case Some(p) => Parse(codec, bytes) == Some(Parsed(done + p.events, offset + p.length))
  }

  /** `ReadBytes('\n')` at an offset: the line with its newline, or nothing at the end. */
  function LineAt(bytes: seq<byte>, offset: nat): (line: Option<seq<byte>>)
    requires offset <= |bytes|
    ensures line.Some? ==> 0 < |line.value| <= |bytes| - offset
  {
    match LineEnd(bytes[offset..])
    case None => None
    case Some(n) => Some(bytes[offset..][..n])
  }

  lemma ReadNothing(codec: Codec, bytes: seq<byte>)
    ensures Read(codec, bytes, [], 0)
  {
    assert bytes[0..] == bytes;
    hide Parse;
    assert Parse(codec, bytes).Some? ==> [] + Parse(codec, bytes).value.events == Parse(codec, bytes).value.events;
  }

  function Prepend(e: Event, n: nat, p: Option<Parsed>): Option<Parsed> {
    match p
    case None => None
    case Some(q) => Some(Parsed([e] + q.events, n + q.length))
  }

  lemma ParseOnce(codec: Codec, bytes: seq<byte>, offset: nat, e: Event)
    requires offset <= |bytes| && LineAt(bytes, offset).Some? && codec.decode(LineAt(bytes, offset).value) == Some(e)
    ensures var n := |LineAt(bytes, offset).value|;
            Parse(codec, bytes[offset..]) == Prepend(e, n, Parse(codec, bytes[offset + n..]))
  {
    var n := |LineAt(bytes, offset).value|;
    assert bytes[offset..][n..] == bytes[offset + n..];
  }

  lemma ReadLine(codec: Codec, bytes: seq<byte>, done: seq<Event>, offset: nat, e: Event)
    requires Read(codec, bytes, done, offset)
    requires LineAt(bytes, offset).Some? && codec.decode(LineAt(bytes, offset).value) == Some(e)
    ensures Read(codec, bytes, done + [e], offset + |LineAt(bytes, offset).value|)
  {
    hide Parse, LineAt;
    ParseOnce(codec, bytes, offset, e);
    var p := Parse(codec, bytes[offset + |LineAt(bytes, offset).value|..]);
    if p.Some? { assert done + ([e] + p.value.events) == (done + [e]) + p.value.events; }
  }

  lemma ReadAll(codec: Codec, bytes: seq<byte>, done: seq<Event>, offset: nat)
    requires Read(codec, bytes, done, offset) && LineAt(bytes, offset) == None
    ensures Parse(codec, bytes) == Some(Parsed(done, offset))
  {
    assert done + [] == done;
  }

  lemma ReplaySnoc(base: Streams, log: seq<Event>, e: Event)
    ensures Replay(base, log + [e]) == ReplayOne(Replay(base, log), e)
  {}

  /** The streams replay the lines before `offset`. */
  ghost predicate Progress(codec: Codec, base: Streams, bytes: seq<byte>, streams: Streams, offset: nat) {
    offset <= |bytes| && exists done :: streams == Replay(base, done) && Read(codec, bytes, done, offset)
  }

  lemma ProgressStarts(codec: Codec, base: Streams, bytes: seq<byte>)
    ensures Progress(codec, base, bytes, base, 0)
  {
    assert Replay(base, []) == base;
    hide Read, Replay;
    ReadNothing(codec, bytes);
  }

  lemma ProgressGoesOn(codec: Codec, base: Streams, bytes: seq<byte>, streams: Streams, offset: nat, e: Event)
    requires Progress(codec, base, bytes, streams, offset)
    requires LineAt(bytes, offset).Some? && codec.decode(LineAt(bytes, offset).value) == Some(e)
    ensures Progress(codec, base, bytes, ReplayOne(streams, e), offset + |LineAt(bytes, offset).value|)
  {
    hide Read, Replay, LineAt, ReplayOne;
    var done :| streams == Replay(base, done) && Read(codec, bytes, done, offset);
    ReadLine(codec, bytes, done, offset, e);
    ReplaySnoc(base, done, e);
  }

  lemma ProgressEnds(codec: Codec, base: Streams, bytes: seq<byte>, streams: Streams, offset: nat)
    requires Progress(codec, base, bytes, streams, offset) && LineAt(bytes, offset).None?
    ensures Parse(codec, bytes).Some? && streams == Replay(base, Parse(codec, bytes).value.events)
    ensures offset == Parse(codec, bytes).value.length
  {
    hide Read, Replay, LineAt, Parse;
    var done :| streams == Replay(base, done) && Read(codec, bytes, done, offset);
    ReadAll(codec, bytes, done, offset);
  }

  lemma ProgressFails(codec: Codec, base: Streams, bytes: seq<byte>, streams: Streams, offset: nat)
    requires Progress(codec, base, bytes, streams, offset)
    requires LineAt(bytes, offset).Some? && codec.decode(LineAt(bytes, offset).value).None?
    ensures Parse(codec, bytes).None?
  {}

  /** The reading loop of `loadJournalLocked`; nothing if a complete line does not decode. */
  method ReadJournal(codec: Codec, base: Streams, bytes: seq<byte>) returns (r: Option<Streams>, offset: nat)
    ensures r.Some? <==> Parse(codec, bytes).Some?
    ensures r.Some? ==> r.value == Replay(base, Parse(codec, bytes).value.events) && offset == Parse(codec, bytes).value.length
  {
    hide *;
    var streams := base;
    offset := 0;
    ProgressStarts(codec, base, bytes);
    while true
      invariant offset <= |bytes| && Progress(codec, base, bytes, streams, offset)
      decreases |bytes| - offset
    {
      var line := LineAt(bytes, offset);
      if line.None? {
        ProgressEnds(codec, base, bytes, streams, offset);
        return Some(streams), offset;
      }
      var decoded := codec.decode(line.value);
      if decoded.None? {
        ProgressFails(codec, base, bytes, streams, offset);
        return None, offset;
      }
      ProgressGoesOn(codec, base, bytes, streams, offset, decoded.value);
      streams := ReplayOne(streams, decoded.value);
      offset := offset + |line.value|;
    }
  }

  /** The validation loop over the streams, in whatever order the map yields them. */
  method ValidateAll(streams: Streams, accepts: Accepts) returns (r: Result<Streams, LoadError>)
    ensures r.Ok? <==> AllValid(streams, accepts)
    ensures r.Ok? ==> r.value == Started(streams)
  {
    hide Valid;
    var todo := streams.Keys;
    var result: Streams := map[];
    while todo != {}
      invariant todo <= streams.Keys && result.Keys == streams.Keys - todo
      invariant forall s :: s in result ==> Valid(s, streams[s], accepts) && result[s] == streams[s].(next := First(streams[s].next))
      decreases todo
    {
      var session :| session in todo;
      var valid := Validate(session, streams[session], accepts);
      if valid.Err? { return Err(InvalidStream(session)); }
      result := result[session := valid.value];
      todo := todo - {session};
    }
    assert result == Started(streams);
    r := Ok(result);
  }

  datatype StoreError = Closed | Refused | Full(error: Error)

  class FileEventStore {
    const codec: Codec
    const accepts: Accepts
    var base: Streams          // the state file, already validated
    var journal: seq<byte>     // the journal file
    var streams: Streams
    var latest: map<string, nat>
    var closed: bool

    constructor (codec: Codec, accepts: Accepts, base: Streams, journal: seq<byte>)
      ensures this.codec == codec && this.accepts == accepts && this.base == base && this.journal == journal && !closed
    {
      this.codec, this.accepts, this.base, this.journal := codec, accepts, base, journal;
      streams, latest, closed := map[], map[], false;
    }

    /** `loadJournalLocked` with the cursors set up after it; the truncation precedes validation. */
    method Load() returns (r: Result<(), LoadError>)
      modifies this`journal, this`streams, this`latest
      ensures r.Ok? <==> Loadable(codec, accepts, base, old(journal))
      ensures r.Ok? ==> Loads(codec, accepts, base, old(journal), streams, journal)
      ensures r.Ok? ==> latest == Latest(streams)
      ensures r.Err? ==> streams == old(streams) && journal <= old(journal)
    {
      hide Parse, Replay, AllValid;
      var read, offset := ReadJournal(codec, base, journal);
      if read.None? { return Err(Undecodable); }
      if offset < |journal| { journal := journal[..offset]; }
      var validated := ValidateAll(read.value, accepts);
      if validated.Err? { return Err(validated.error); }
      streams := validated.value;
      latest := Latest(streams);
      r := Ok(());
    }

    /** `List`; a session name that does not normalise is `None`. */
    method List(session: Option<string>, after: nat, limit: int, size: Size) returns (r: Result<Page, StoreError>)
      ensures session.None? || NormalLimit(limit).None? ==> r == Err(Refused)
      ensures session.Some? && NormalLimit(limit).Some? && closed ==> r == Err(Closed)
      ensures session.Some? && NormalLimit(limit).Some? && !closed ==>
                r.Ok? && IsPage(Pending(StreamOf(streams, session.value).events, after), NormalLimit(limit).value, size, r.value)
    {
      hide IsPage, Pending;
      if session.None? || NormalLimit(limit).None? { return Err(Refused); }
      if closed { return Err(Closed); }
      var page := ListEvents(StreamOf(streams, session.value), after, NormalLimit(limit).value, size);
      r := Ok(page);
    }

    /** `Append`; a name or event that does not normalise is `None`. */
    method Append(session: Option<string>, event: Option<Runtime>, now: int) returns (r: Result<Event, StoreError>)
      modifies this`journal, this`streams, this`latest
      ensures session.None? || event.None? ==> r == Err(Refused)
      ensures session.Some? && event.Some? && closed ==> r == Err(Closed)
      ensures session.Some? && event.Some? && !closed ==>
                match EventLog.Append(StreamOf(old(streams), session.value), session.value, event.value, now)
                case Err(e) => r == Err(Full(e))
                case Ok(a) =>
                  && r == Ok(a.event)
                  && (a.changed ==> streams == old(streams)[session.value := a.stream]
                                    && journal == old(journal) + Line(codec, a.event)
                                    && latest == old(latest)[session.value := a.event.sequence])
                  && (!a.changed ==> streams == old(streams) && journal == old(journal) && latest == old(latest))
      ensures r.Err? ==> streams == old(streams) && journal == old(journal) && latest == old(latest)
    {
      if session.None? || event.None? { return Err(Refused); }
      if closed { return Err(Closed); }
      var a := AppendAgentEvent(StreamOf(streams, session.value), session.value, event.value, now);
      if a.Err? { return Err(Full(a.error)); }
      if !a.value.changed { return Ok(a.value.event); }
      journal := journal + Line(codec, a.value.event);
      streams := streams[session.value := a.value.stream];
      latest := latest[session.value := a.value.event.sequence];
      r := Ok(a.value.event);
    }
  }

  /** `latestAgentEventSequence` of every stream. */
  function Latest(streams: Streams): map<string, nat> {
    map s | s in streams :: if streams[s].events == [] then 0 else streams[s].events[|streams[s].events| - 1].sequence
  }

  /** The cursor of a valid stream is its largest sequence, and an append moves it to the new event. */
  lemma LatestMeans(streams: Streams, session: string, accepts: Accepts)
    requires session in streams && Valid(session, streams[session], accepts)
    ensures session in Latest(streams)
    ensures forall e :: e in streams[session].events ==> e.sequence <= Latest(streams)[session]
    ensures streams[session].events != [] ==> exists e :: e in streams[session].events && e.sequence == Latest(streams)[session]
    ensures streams[session].events == [] ==> Latest(streams)[session] == 0
  {
    var events := streams[session].events;
    if events != [] { assert events[|events| - 1] in events; }
  }

  lemma LatestFollowsAppend(streams: Streams, session: string, event: Runtime, now: int)
    requires EventLog.Append(StreamOf(streams, session), session, event, now).Ok?
    ensures var a := EventLog.Append(StreamOf(streams, session), session, event, now).value;
            a.changed ==> Latest(streams[session := a.stream]) == Latest(streams)[session := a.event.sequence]
  {}

  // ---- crashes -----------------------------------------------------------

  /** Fixed for a run. */
  datatype Setting = Setting(codec: Codec, accepts: Accepts, base: Streams)

  ghost predicate Proper(c: Setting) {
    Faithful(c.codec, c.accepts) && AllValid(c.base, c.accepts) && Started(c.base) == c.base
  }

  /** `log` and `acked` are history: the events whose line is wholly on disk, and the new events
      whose append returned. */
  datatype State = State(disk: seq<byte>, memory: Option<Streams>, log: seq<Event>, acked: seq<Event>)

  datatype Step =
    | Append(session: string, event: Runtime, now: int)
    | Crash
    | CrashInAppend(session: string, event: Runtime, now: int, written: nat)
    | Reopen(streams: Streams, kept: seq<byte>)

  function Attempt(s: State, session: string, event: Runtime, now: int): Result<Appended, Error>
    requires s.memory.Some?
  {
    EventLog.Append(StreamOf(s.memory.value, session), session, event, now)
  }

  /** Events are normalised before they reach the store and the clock is set. */
  ghost predicate Enabled(c: Setting, s: State, step: Step) {
    match step
    case Append(session, event, now) => s.memory.Some? && c.accepts(event) && now != 0
    case Crash => true
    case CrashInAppend(session, event, now, written) =>
      && s.memory.Some? && c.accepts(event) && now != 0
      && Attempt(s, session, event, now).Ok? && Attempt(s, session, event, now).value.changed
      && written <= |Line(c.codec, Attempt(s, session, event, now).value.event)|
    case Reopen(streams, kept) => s.memory.None? && Loads(c.codec, c.accepts, c.base, s.disk, streams, kept)
  }

  ghost function Next(c: Setting, s: State, step: Step): State
    requires Enabled(c, s, step)
  {
    match step
    case Append(session, event, now) => (
      match Attempt(s, session, event, now)
      case Err(_) => s
      case Ok(a) => if !a.changed then s else
        State(s.disk + Line(c.codec, a.event), Some(s.memory.value[session := a.stream]), s.log + [a.event], s.acked + [a.event]))
    case Crash => s.(memory := None)
    case CrashInAppend(session, event, now, written) => (
      var e := Attempt(s, session, event, now).value.event;
      var line := Line(c.codec, e);
      s.(disk := s.disk + line[..written], memory := None, log := if written == |line| then s.log + [e] else s.log))
    case Reopen(streams, kept) => s.(disk := kept, memory := Some(streams))
  }

  // ---- invariant ---------------------------------------------------------

  ghost predicate OnDisk(c: Setting, s: State) {
    var n := |Lines(c.codec, s.log)|;
    n <= |s.disk| && s.disk[..n] == Lines(c.codec, s.log)
    && if s.memory.Some? then n == |s.disk| else NEWLINE !in s.disk[n..]
  }

  ghost predicate InMemory(c: Setting, s: State) {
    s.memory.Some? ==> View(c.codec, s.memory.value) == View(c.codec, Replay(c.base, s.log))
  }

  ghost predicate Inv(c: Setting, s: State) {
    && Genuine(c.base, s.log, c.accepts) && OnDisk(c, s) && InMemory(c, s)
    && Elements(s.acked) <= Elements(s.log)
  }

  /** A new event is appended in memory just as a reload would replay it. */
  lemma AppendIsReplay(streams: Streams, session: string, event: Runtime, now: int, accepts: Accepts)
    requires EventLog.Append(StreamOf(streams, session), session, event, now).Ok?
    requires EventLog.Append(StreamOf(streams, session), session, event, now).value.changed
    requires accepts(event) && now != 0
    ensures var a := EventLog.Append(StreamOf(streams, session), session, event, now).value;
            streams[session := a.stream] == ReplayOne(streams, a.event) && Appendable(streams, a.event, accepts)
  {
    var a := EventLog.Append(StreamOf(streams, session), session, event, now).value;
    assert Origin(a.event) == event;
  }

  lemma LineHasNoInnerNewline(codec: Codec, accepts: Accepts, e: Event, n: nat)
    requires Faithful(codec, accepts) && n < |Line(codec, e)|
    ensures NEWLINE !in Line(codec, e)[..n]
  {}

  lemma LinesSnoc(codec: Codec, log: seq<Event>, e: Event)
    ensures Lines(codec, log + [e]) == Lines(codec, log) + Line(codec, e)
  {}

  lemma GenuineSnoc(base: Streams, log: seq<Event>, e: Event, accepts: Accepts)
    requires Genuine(base, log, accepts) && Appendable(Replay(base, log), e, accepts)
    ensures Genuine(base, log + [e], accepts)
  {}

  /** The event an append creates extends both the log and what memory shows. */
  lemma AttemptExtends(c: Setting, s: State, session: string, event: Runtime, now: int)
    requires Proper(c) && Inv(c, s) && Enabled(c, s, Append(session, event, now))
    requires Attempt(s, session, event, now).Ok? && Attempt(s, session, event, now).value.changed
    ensures var a := Attempt(s, session, event, now).value;
            Genuine(c.base, s.log + [a.event], c.accepts)
            && View(c.codec, s.memory.value[session := a.stream]) == View(c.codec, Replay(c.base, s.log + [a.event]))
  {
    hide Genuine, Faithful, Appendable, AllValid, View;
    var a, m, r := Attempt(s, session, event, now).value, s.memory.value, Replay(c.base, s.log);
    AppendIsReplay(m, session, event, now, c.accepts);
    AppendableAlike(c.codec, c.accepts, m, r, a.event, a.event);
    GenuineSnoc(c.base, s.log, a.event, c.accepts);
    ReplayOneAlike(c.codec, c.accepts, m, r, a.event, a.event);
    ReplaySnoc(c.base, s.log, a.event);
  }

  lemma AppendKeeps(c: Setting, s: State, session: string, event: Runtime, now: int)
    requires Proper(c) && Inv(c, s) && Enabled(c, s, Append(session, event, now))
    ensures Inv(c, Next(c, s, Append(session, event, now)))
  {
    hide Genuine, Proper, View, Replay, Lines, Line;
    var t := Next(c, s, Append(session, event, now));
    if t != s {
      var a := Attempt(s, session, event, now).value;
      AttemptExtends(c, s, session, event, now);
      LinesSnoc(c.codec, s.log, a.event);
      assert s.disk == Lines(c.codec, s.log);
      assert t.disk[..|t.disk|] == t.disk;
      assert Elements(t.acked) == Elements(s.acked) + {a.event} && Elements(t.log) == Elements(s.log) + {a.event};
    }
  }

  /** The part of a line that reaches the disk is all of it or has no newline. */
  lemma TornWrite(c: Setting, disk: seq<byte>, log: seq<Event>, e: Event, written: nat)
    requires Faithful(c.codec, c.accepts) && disk == Lines(c.codec, log) && written <= |Line(c.codec, e)|
    ensures var after := if written == |Line(c.codec, e)| then log + [e] else log;
            forall acked :: OnDisk(c, State(disk + Line(c.codec, e)[..written], None, after, acked))
  {
    var line := Line(c.codec, e);
    var torn := disk + line[..written];
    LinesSnoc(c.codec, log, e);
    if written == |line| {
      assert line[..written] == line;
      assert torn == Lines(c.codec, log + [e]);
      assert torn[|torn|..] == [];
    } else {
      LineHasNoInnerNewline(c.codec, c.accepts, e, written);
      assert torn[|disk|..] == line[..written];
    }
  }

  lemma CrashInAppendKeeps(c: Setting, s: State, session: string, event: Runtime, now: int, written: nat)
    requires Proper(c) && Inv(c, s) && Enabled(c, s, CrashInAppend(session, event, now, written))
    ensures Inv(c, Next(c, s, CrashInAppend(session, event, now, written)))
  {
    hide Genuine, View, Replay, Lines, Line, Faithful, AllValid;
    var t := Next(c, s, CrashInAppend(session, event, now, written));
    var e := Attempt(s, session, event, now).value.event;
    AttemptExtends(c, s, session, event, now);
    assert s.disk == Lines(c.codec, s.log);
    TornWrite(c, s.disk, s.log, e, written);
    hide OnDisk, Attempt;
    assert Elements(s.log + [e]) == Elements(s.log) + {e};
    assert t.acked == s.acked && (t.log == s.log || t.log == s.log + [e]);
  }

  lemma CrashKeeps(c: Setting, s: State)
    requires Inv(c, s)
    ensures Inv(c, Next(c, s, Crash))
  {
    hide Genuine, Replay, Lines;
    assert s.memory.Some? ==> s.disk[|s.disk|..] == [];
  }

  lemma {:induction false} ReplayStarted(c: Setting, log: seq<Event>)
    requires Proper(c) && Genuine(c.base, log, c.accepts)
    ensures Started(Replay(c.base, log)) == Replay(c.base, log)
  {
    hide Faithful, AllValid;
    if log != [] {
      var init, e := log[..|log| - 1], log[|log| - 1];
      ReplayStarted(c, init);
      StartedOne(Replay(c.base, init), e, c.accepts);
    }
  }

  lemma StartedOne(streams: Streams, e: Event, accepts: Accepts)
    requires Started(streams) == streams && Appendable(streams, e, accepts)
    ensures Started(ReplayOne(streams, e)) == ReplayOne(streams, e)
  {
    var t := ReplayOne(streams, e);
    assert t[e.session].next == e.sequence + 1;
    forall session | session in t ensures Started(t)[session] == t[session] {
      if session != e.session { assert Started(streams)[session] == streams[session]; }
    }
  }

  /** In a crashed state the file holds the logged lines and an incomplete one; a reload keeps
      exactly the logged lines, accepts them, and rebuilds their streams. */
  lemma ReloadExact(c: Setting, s: State)
    requires Proper(c) && Inv(c, s) && s.memory.None?
    ensures Loads(c.codec, c.accepts, c.base, s.disk, Replay(c.base, Canon(c.codec, s.log)), Lines(c.codec, s.log))
    ensures Loadable(c.codec, c.accepts, c.base, s.disk)
  {
    hide Genuine, Faithful, AllValid, Replay, Parse, Lines;
    var n := |Lines(c.codec, s.log)|;
    assert s.disk == Lines(c.codec, s.log) + s.disk[n..];
    ParseLines(c.codec, c.accepts, s.log, s.disk[n..]);
    GenuineCanon(c.codec, c.accepts, c.base, s.log);
    GenuineIsValid(c.base, Canon(c.codec, s.log), c.accepts);
    ReplayStarted(c, Canon(c.codec, s.log));
  }

  lemma ReopenKeeps(c: Setting, s: State, streams: Streams, kept: seq<byte>)
    requires Proper(c) && Inv(c, s) && Enabled(c, s, Reopen(streams, kept))
    ensures Inv(c, Next(c, s, Reopen(streams, kept)))
    ensures streams == Replay(c.base, Canon(c.codec, s.log)) && kept == Lines(c.codec, s.log)
  {
    hide Genuine, AllValid, Replay, Parse, Lines;
    ReloadExact(c, s);
    ReplayCanon(c.codec, c.accepts, c.base, s.log);
    assert kept[..|kept|] == kept;
  }

  lemma StepKeeps(c: Setting, s: State, step: Step)
    requires Proper(c) && Inv(c, s) && Enabled(c, s, step)
    ensures Inv(c, Next(c, s, step)) && s.log <= Next(c, s, step).log && s.acked <= Next(c, s, step).acked
  {
    hide Inv, Proper;
    match step
    case Append(session, event, now) => AppendKeeps(c, s, session, event, now);
    case Crash => CrashKeeps(c, s);
    case CrashInAppend(session, event, now, written) => CrashInAppendKeeps(c, s, session, event, now, written);
    case Reopen(streams, kept) => ReopenKeeps(c, s, streams, kept);
  }

  // ---- runs --------------------------------------------------------------

  ghost predicate Runs(c: Setting, s: State, steps: seq<Step>, t: State)
    decreases |steps|
  {
    if steps == [] then t == s else Enabled(c, s, steps[0]) && Runs(c, Next(c, s, steps[0]), steps[1..], t)
  }

  lemma {:induction false} RunKeeps(c: Setting, s: State, steps: seq<Step>, t: State)
    requires Proper(c) && Inv(c, s) && Runs(c, s, steps, t)
    ensures Inv(c, t) && s.log <= t.log && s.acked <= t.acked
    decreases |steps|
  {
    hide Inv, Proper, Enabled, Next;
    if steps != [] {
      StepKeeps(c, s, steps[0]);
      RunKeeps(c, Next(c, s, steps[0]), steps[1..], t);
    }
  }

  const FRESH := State([], None, [], [])

  lemma FreshInv(c: Setting)
    ensures Inv(c, FRESH)
  {}

  /** Over every run with crashes at any byte: a reload succeeds, drops only an incomplete last
      line, and rebuilds streams that show every acknowledged event and next sequence. */
  lemma RecoveryIsExact(c: Setting, steps: seq<Step>, t: State)
    requires Proper(c) && Runs(c, FRESH, steps, t) && t.memory.None?
    ensures var streams := Replay(c.base, Canon(c.codec, t.log));
            Enabled(c, t, Reopen(streams, Lines(c.codec, t.log)))
            && View(c.codec, streams) == View(c.codec, Replay(c.base, t.log))
            && AllValid(streams, c.accepts)
    ensures Elements(t.acked) <= Elements(t.log)
    ensures Lines(c.codec, t.log) <= t.disk && NEWLINE !in t.disk[|Lines(c.codec, t.log)|..]
  {
    FreshInv(c);
    RunKeeps(c, FRESH, steps, t);
    hide Genuine, Faithful, Replay, Parse, Lines, Runs;
    ReloadExact(c, t);
    ReplayCanon(c.codec, c.accepts, c.base, t.log);
    GenuineCanon(c.codec, c.accepts, c.base, t.log);
    GenuineIsValid(c.base, Canon(c.codec, t.log), c.accepts);
  }

  /** A crash in the middle of an append, followed by a reload, leaves what memory showed before
      the append, or after it if the whole line was written: nothing else. */
  lemma CrashLosesNothing(c: Setting, s: State, session: string, event: Runtime, now: int, written: nat, streams: Streams, kept: seq<byte>)
    requires Proper(c) && Inv(c, s) && Enabled(c, s, CrashInAppend(session, event, now, written))
    requires Enabled(c, Next(c, s, CrashInAppend(session, event, now, written)), Reopen(streams, kept))
    ensures var a := Attempt(s, session, event, now).value;
            var done := written == |Line(c.codec, a.event)|;
            View(c.codec, streams) == View(c.codec, if done then s.memory.value[session := a.stream] else s.memory.value)
            && kept == if done then s.disk + Line(c.codec, a.event) else s.disk
  {
    var t := Next(c, s, CrashInAppend(session, event, now, written));
    CrashInAppendKeeps(c, s, session, event, now, written);
    AttemptExtends(c, s, session, event, now);
    LinesSnoc(c.codec, s.log, Attempt(s, session, event, now).value.event);
    hide Genuine, Faithful, Replay, Parse, Lines, View, AllValid, Loads, Attempt;
    ReopenKeeps(c, t, streams, kept);
    ReplayCanon(c.codec, c.accepts, c.base, t.log);
    assert s.disk == Lines(c.codec, s.log);
  }

  // ---- sequences are never reused ----------------------------------------

  lemma {:induction false} NextAbove(base: Streams, log: seq<Event>, accepts: Accepts, i: nat)
    requires Genuine(base, log, accepts) && i < |log|
    ensures First(StreamOf(Replay(base, log), log[i].session).next) > log[i].sequence
  {
    var init, e := log[..|log| - 1], log[|log| - 1];
    if i < |init| { NextAbove(base, init, accepts, i); }
    assert StreamOf(Replay(base, log), e.session).next == e.sequence + 1;
  }

  lemma {:induction false} GenuineIncreases(base: Streams, log: seq<Event>, accepts: Accepts, i: nat, j: nat)
    requires Genuine(base, log, accepts) && i < j < |log| && log[i].session == log[j].session
    ensures log[i].sequence < log[j].sequence
    decreases |log|
  {
    var init := log[..|log| - 1];
    if j < |init| { GenuineIncreases(base, init, accepts, i, j); } else { NextAbove(base, init, accepts, i); }
  }

  /** Whatever was ever written for a session, acknowledged or not, got a larger sequence than
      everything written before it, across all crashes and reloads. */
  lemma SequencesAreNeverReused(c: Setting, steps: seq<Step>, t: State, i: nat, j: nat)
    requires Proper(c) && Runs(c, FRESH, steps, t)
    requires i < j < |t.log| && t.log[i].session == t.log[j].session
    ensures t.log[i].sequence < t.log[j].sequence
  {
    hide Runs, Genuine, Proper;
    FreshInv(c);
    RunKeeps(c, FRESH, steps, t);
    GenuineIncreases(c.base, t.log, c.accepts, i, j);
  }
}
