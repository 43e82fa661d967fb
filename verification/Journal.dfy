/** The append-only event journal of `gateway/event_store_file.go`: streams kept in memory, one
    encoded line per event on disk, and a reload that survives a crash at any byte of a write. */
module Journal {
  import opened Outcome
  import opened Text
  import opened EventLog

  const NEWLINE: byte := 10

  type Streams = map<string, Stream>

  /** How events become lines.  `canon` is what decoding an encoded event yields: the JSON encoder
      compacts the payload. */
  datatype Codec = Codec(encode: Event -> seq<byte>, decode: seq<byte> -> Option<Event>, canon: Event -> Event)

  ghost predicate Faithful(codec: Codec, accepts: Accepts) {
    && (forall e :: NEWLINE !in codec.encode(e) && codec.decode(codec.encode(e) + [NEWLINE]) == Some(codec.canon(e)))
    && (forall e :: codec.canon(codec.canon(e)) == codec.canon(e))
    && (forall e :: Kept(e, codec.canon(e)) && (accepts(Origin(e)) ==> accepts(Origin(codec.canon(e)))))
  }

  predicate Kept(e: Event, f: Event) {
    f.sequence == e.sequence && f.session == e.session && f.id == e.id && f.name == e.name
    && f.generation == e.generation && f.createdAt == e.createdAt
  }

  function Line(codec: Codec, e: Event): seq<byte> { codec.encode(e) + [NEWLINE] }

  function Lines(codec: Codec, log: seq<Event>): seq<byte> {
    if log == [] then [] else Lines(codec, log[..|log| - 1]) + Line(codec, log[|log| - 1])
  }

  // ---- replay ------------------------------------------------------------

  function StreamOf(streams: Streams, session: string): Stream {
    if session in streams then streams[session] else EMPTY
  }

  function Increment(sequence: uint64): uint64 { (sequence + 1) % 0x1_0000_0000_0000_0000 }

  /** `appendJournalEvent`. */
  function Replayed(stream: Stream, e: Event): Stream {
    if e.id in Ids(stream.events) then stream
    else Stream(if e.sequence >= stream.next then Increment(e.sequence) else stream.next, stream.events + [e])
  }

  function ReplayOne(streams: Streams, e: Event): Streams {
    streams[e.session := Replayed(StreamOf(streams, e.session), e)]
  }

  function Replay(base: Streams, log: seq<Event>): Streams {
    if log == [] then base else ReplayOne(Replay(base, log[..|log| - 1]), log[|log| - 1])
  }

  ghost predicate AllValid(streams: Streams, accepts: Accepts) {
    forall session :: session in streams ==> Valid(session, streams[session], accepts)
  }

  function Started(streams: Streams): Streams {
    map session | session in streams :: streams[session].(next := First(streams[session].next))
  }

  // ---- reading the file --------------------------------------------------

  /** The length of the first line with its newline, or nothing if there is no newline. */
  function LineEnd(bytes: seq<byte>): (n: Option<nat>)
    ensures n.Some? ==> 0 < n.value <= |bytes|
  {
    if bytes == [] then None
    else if bytes[0] == NEWLINE then Some(1)
    else match LineEnd(bytes[1..])
      case None => None
      case Some(n) => Some(n + 1)
  }

  lemma {:induction false} NoLine(tail: seq<byte>)
    requires NEWLINE !in tail
    ensures LineEnd(tail) == None
  {
    if tail != [] { NoLine(tail[1..]); }
  }

  /** The decoded complete lines, and the bytes they take. */
  datatype Parsed = Parsed(events: seq<Event>, length: nat)

  /** Nothing when some complete line does not decode. */
  function Parse(codec: Codec, bytes: seq<byte>): (r: Option<Parsed>)
    ensures r.Some? ==> r.value.length <= |bytes|
    decreases |bytes|
  {
    match LineEnd(bytes)
    case None => Some(Parsed([], 0))
    case Some(n) =>
      match codec.decode(bytes[..n])
      case None => None
      case Some(e) =>
        match Parse(codec, bytes[n..])
        case None => None
        case Some(p) => Some(Parsed([e] + p.events, n + p.length))
  }

  lemma {:induction false} FirstLine(line: seq<byte>, rest: seq<byte>)
    requires NEWLINE !in line
    ensures LineEnd(line + [NEWLINE] + rest) == Some(|line| + 1)
  {
    var bytes := line + [NEWLINE] + rest;
    if line != [] {
      assert bytes[1..] == line[1..] + [NEWLINE] + rest;
      FirstLine(line[1..], rest);
    }
  }

  function Canon(codec: Codec, log: seq<Event>): (r: seq<Event>)
    ensures |r| == |log| && forall i :: 0 <= i < |log| ==> r[i] == codec.canon(log[i])
  {
    seq(|log|, i requires 0 <= i < |log| => codec.canon(log[i]))
  }

  lemma {:induction false} LinesFirst(codec: Codec, log: seq<Event>)
    requires log != []
    ensures Lines(codec, log) == Line(codec, log[0]) + Lines(codec, log[1..])
  {
    if |log| == 1 {
      assert log[..0] == [] && log[1..] == [];
    } else {
      var init := log[..|log| - 1];
      LinesFirst(codec, init);
      assert log[1..][..|log| - 2] == init[1..];
    }
  }

  lemma ParseLine(codec: Codec, accepts: Accepts, e: Event, rest: seq<byte>, p: Parsed)
    requires Faithful(codec, accepts) && Parse(codec, rest) == Some(p)
    ensures Parse(codec, Line(codec, e) + rest) == Some(Parsed([codec.canon(e)] + p.events, |Line(codec, e)| + p.length))
  {
    var line := codec.encode(e);
    var bytes := Line(codec, e) + rest;
    FirstLine(line, rest);
    assert bytes[..|line| + 1] == line + [NEWLINE] && bytes[|line| + 1..] == rest;
  }

  lemma ParseTail(codec: Codec, tail: seq<byte>)
    requires NEWLINE !in tail
    ensures Parse(codec, tail) == Some(Parsed([], 0))
  {
    NoLine(tail);
  }

  /** Reading back what was written, followed by a tail without a newline, yields the written
      events and leaves out exactly the tail. */
  lemma {:induction false} ParseLines(codec: Codec, accepts: Accepts, log: seq<Event>, tail: seq<byte>)
    requires Faithful(codec, accepts) && NEWLINE !in tail
    ensures Parse(codec, Lines(codec, log) + tail) == Some(Parsed(Canon(codec, log), |Lines(codec, log)|))
  {
    hide Parse, Line, Faithful;
    if log == [] {
      assert Lines(codec, log) + tail == tail;
      ParseTail(codec, tail);
    } else {
      LinesFirst(codec, log);
      hide Lines;
      ParseLines(codec, accepts, log[1..], tail);
      ParseLine(codec, accepts, log[0], Lines(codec, log[1..]) + tail, Parsed(Canon(codec, log[1..]), |Lines(codec, log[1..])|));
      assert Lines(codec, log) + tail == Line(codec, log[0]) + (Lines(codec, log[1..]) + tail);
      assert Canon(codec, log) == [codec.canon(log[0])] + Canon(codec, log[1..]);
    }
  }

  // ---- what the store keeps ----------------------------------------------

  function CanonStream(codec: Codec, stream: Stream): Stream { Stream(stream.next, Canon(codec, stream.events)) }

  /** What can be observed of the streams up to the compaction of payloads. */
  function View(codec: Codec, streams: Streams): Streams {
    map session | session in streams :: CanonStream(codec, streams[session])
  }

  /** The event a store with these streams would write next for its session. */
  ghost predicate Appendable(streams: Streams, e: Event, accepts: Accepts) {
    var stream := StreamOf(streams, e.session);
    e.id !in Ids(stream.events) && e.sequence == First(stream.next) < MAX_SEQUENCE
    && e.createdAt != 0 && accepts(Origin(e))
  }

  /** Every logged event was the next one of its session when it was written. */
  ghost predicate Genuine(base: Streams, log: seq<Event>, accepts: Accepts) {
    log == [] ||
    (var init := log[..|log| - 1];
     Genuine(base, init, accepts) && Appendable(Replay(base, init), log[|log| - 1], accepts))
  }

  lemma ReplayKeepsValid(streams: Streams, e: Event, accepts: Accepts)
    requires AllValid(streams, accepts) && Appendable(streams, e, accepts)
    ensures AllValid(ReplayOne(streams, e), accepts)
  {
    var stream := StreamOf(streams, e.session);
    assert Valid(e.session, stream, accepts);
    ReplayedValid(e.session, stream, e, accepts);
  }

  lemma ReplayedValid(session: string, stream: Stream, e: Event, accepts: Accepts)
    requires Valid(session, stream, accepts) && e.session == session && e.id !in Ids(stream.events)
    requires e.sequence == First(stream.next) < MAX_SEQUENCE && e.createdAt != 0 && accepts(Origin(e))
    ensures Valid(session, Replayed(stream, e), accepts)
    ensures Replayed(stream, e) == Stream(First(stream.next) + 1, stream.events + [e])
  {
    var r := Replayed(stream, e);
    assert r.next == First(stream.next) + 1;
    forall i | 0 <= i < |stream.events| ensures stream.events[i].id != e.id {
      assert stream.events[i].id in Ids(stream.events);
    }
  }

  lemma {:induction false} GenuineIsValid(base: Streams, log: seq<Event>, accepts: Accepts)
    requires AllValid(base, accepts) && Genuine(base, log, accepts)
    ensures AllValid(Replay(base, log), accepts)
  {
    hide AllValid;
    if log != [] {
      GenuineIsValid(base, log[..|log| - 1], accepts);
      ReplayKeepsValid(Replay(base, log[..|log| - 1]), log[|log| - 1], accepts);
    }
  }

  // ---- replay and compaction commute -------------------------------------

  lemma SameIds(codec: Codec, accepts: Accepts, events: seq<Event>)
    requires Faithful(codec, accepts)
    ensures Ids(Canon(codec, events)) == Ids(events)
  {}

  lemma CanonSnoc(codec: Codec, events: seq<Event>, e: Event)
    ensures Canon(codec, events + [e]) == Canon(codec, events) + [codec.canon(e)]
  {}

  /** Streams that look alike still do after both replay an event, compacted or not. */
  lemma ReplayedAlike(codec: Codec, accepts: Accepts, a: Stream, b: Stream, e: Event, f: Event)
    requires Faithful(codec, accepts) && CanonStream(codec, a) == CanonStream(codec, b)
    requires codec.canon(e) == codec.canon(f)
    ensures CanonStream(codec, Replayed(a, e)) == CanonStream(codec, Replayed(b, f))
  {
    SameIds(codec, accepts, a.events);
    SameIds(codec, accepts, b.events);
    CanonSnoc(codec, a.events, e);
    CanonSnoc(codec, b.events, f);
    assert Kept(e, codec.canon(e)) && Kept(f, codec.canon(f));
  }

  lemma AlikeAt(codec: Codec, a: Streams, b: Streams, session: string)
    requires View(codec, a) == View(codec, b)
    ensures session in a <==> session in b
    ensures CanonStream(codec, StreamOf(a, session)) == CanonStream(codec, StreamOf(b, session))
  {
    assert session in a <==> session in View(codec, a);
    assert session in b <==> session in View(codec, b);
    if session in a {
      assert View(codec, a)[session] == CanonStream(codec, a[session]);
      assert View(codec, b)[session] == CanonStream(codec, b[session]);
    }
  }

  lemma ReplayOneAlike(codec: Codec, accepts: Accepts, a: Streams, b: Streams, e: Event, f: Event)
    requires Faithful(codec, accepts) && View(codec, a) == View(codec, b) && codec.canon(e) == codec.canon(f)
    ensures View(codec, ReplayOne(a, e)) == View(codec, ReplayOne(b, f))
  {
    hide CanonStream, Replayed;
    assert Kept(e, codec.canon(e)) && Kept(f, codec.canon(f));
    var s := e.session;
    AlikeAt(codec, a, b, s);
    ReplayedAlike(codec, accepts, StreamOf(a, s), StreamOf(b, s), e, f);
    forall session ensures (session in ReplayOne(a, e) <==> session in ReplayOne(b, f))
      && (session in ReplayOne(a, e) ==> CanonStream(codec, ReplayOne(a, e)[session]) == CanonStream(codec, ReplayOne(b, f)[session])) {
      AlikeAt(codec, a, b, session);
    }
  }

  lemma {:induction false} ReplayCanon(codec: Codec, accepts: Accepts, base: Streams, log: seq<Event>)
    requires Faithful(codec, accepts)
    ensures View(codec, Replay(base, Canon(codec, log))) == View(codec, Replay(base, log))
  {
    if log != [] {
      var init, e := log[..|log| - 1], log[|log| - 1];
      ReplayCanon(codec, accepts, base, init);
      var c := Canon(codec, log);
      assert c[..|c| - 1] == Canon(codec, init) && c[|c| - 1] == codec.canon(e);
      ReplayOneAlike(codec, accepts, Replay(base, Canon(codec, init)), Replay(base, init), codec.canon(e), e);
    }
  }

  lemma AppendableAlike(codec: Codec, accepts: Accepts, a: Streams, b: Streams, e: Event, f: Event)
    requires Faithful(codec, accepts) && View(codec, a) == View(codec, b)
    requires f == e || f == codec.canon(e)
    requires Appendable(a, e, accepts)
    ensures Appendable(b, f, accepts)
  {
    assert Kept(e, codec.canon(e));
    AlikeAt(codec, a, b, e.session);
    SameIds(codec, accepts, StreamOf(a, e.session).events);
    SameIds(codec, accepts, StreamOf(b, e.session).events);
  }

  lemma {:induction false} GenuineCanon(codec: Codec, accepts: Accepts, base: Streams, log: seq<Event>)
    requires Faithful(codec, accepts) && Genuine(base, log, accepts)
    ensures Genuine(base, Canon(codec, log), accepts)
  {
    if log != [] {
      hide Appendable, Faithful;
      var init, e := log[..|log| - 1], log[|log| - 1];
      GenuineCanon(codec, accepts, base, init);
      ReplayCanon(codec, accepts, base, init);
      var c := Canon(codec, log);
      assert c[..|c| - 1] == Canon(codec, init) && c[|c| - 1] == codec.canon(e);
      AppendableAlike(codec, accepts, Replay(base, init), Replay(base, Canon(codec, init)), e, codec.canon(e));
    }
  }
}
