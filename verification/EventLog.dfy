/** One session's event stream, `gateway/event.go`: append once per runtime event, validation of
    a stored stream, and listing in pages under a byte budget. */
module EventLog {
  import opened Outcome

  const MAX_SEQUENCE: nat := 0xFFFF_FFFF_FFFF_FFFF

  type uint64 = x: int | 0 <= x <= MAX_SEQUENCE

  /** The zero creation time is 0. */
  datatype Event = Event(sequence: uint64, session: string, id: string, name: string, generation: nat, payload: string, createdAt: int)

  datatype Runtime = Runtime(id: string, name: string, generation: nat, payload: string)

  datatype Stream = Stream(next: uint64, events: seq<Event>)

  const EMPTY := Stream(0, [])

  datatype Error = Exhausted | InvalidEvent(index: nat) | DuplicateEvent(id: string) | BadNext

  // ---- append ------------------------------------------------------------

  function Ids(events: seq<Event>): set<string> { set i | 0 <= i < |events| :: events[i].id }

  function Find(events: seq<Event>, id: string): (r: Option<Event>)
    ensures r.Some? <==> id in Ids(events)
    ensures r.Some? ==> r.value in events && r.value.id == id
  {
    if events == [] then None
    else if events[0].id == id then Some(events[0])
    else
      assert events == [events[0]] + events[1..];
      assert forall i :: 0 < i < |events| ==> events[i] == events[1..][i - 1];
      Find(events[1..], id)
  }

  datatype Appended = Appended(stream: Stream, event: Event, changed: bool)

  function First(next: uint64): uint64 { if next == 0 then 1 else next }

  function Created(sequence: uint64, session: string, event: Runtime, now: int): Event {
    Event(sequence, session, event.id, event.name, event.generation, event.payload, now)
  }

  /** `appendAgentEvent` as a value. */
  function Append(stream: Stream, session: string, event: Runtime, now: int): Result<Appended, Error> {
    match Find(stream.events, event.id)
    case Some(e) => Ok(Appended(stream, e, false))
    case None =>
      var next := First(stream.next);
      if next == MAX_SEQUENCE then Err(Exhausted)
      else
        var e := Created(next, session, event, now);
        Ok(Appended(Stream(next + 1, stream.events + [e]), e, true))
  }

  method AppendAgentEvent(stream: Stream, session: string, event: Runtime, now: int) returns (r: Result<Appended, Error>)
    ensures r == Append(stream, session, event, now)
  {
    for k := 0 to |stream.events|
      invariant Find(stream.events, event.id) == Find(stream.events[k..], event.id)
    {
      assert stream.events[k..][1..] == stream.events[k + 1..];
      if stream.events[k].id == event.id { return Ok(Appended(stream, stream.events[k], false)); }
    }
    var next := stream.next;
    if next == 0 { next := 1; }
    if next == MAX_SEQUENCE { return Err(Exhausted); }
    var e := Created(next, session, event, now);
    r := Ok(Appended(Stream(next + 1, stream.events + [e]), e, true));
  }

  // ---- validation --------------------------------------------------------

  /** Which runtime events `normalizeRuntimeEvent` accepts. */
  type Accepts = Runtime -> bool

  function Origin(e: Event): Runtime { Runtime(e.id, e.name, e.generation, e.payload) }

  predicate EventOk(session: string, e: Event, accepts: Accepts) {
    e.session == session && e.sequence > 0 && e.createdAt != 0 && accepts(Origin(e))
  }

  ghost predicate Increasing(events: seq<Event>) {
    forall i, j :: 0 <= i < j < |events| ==> events[i].sequence < events[j].sequence
  }

  ghost predicate DistinctIds(events: seq<Event>) {
    forall i, j :: 0 <= i < j < |events| ==> events[i].id != events[j].id
  }

  ghost predicate Sound(session: string, events: seq<Event>, accepts: Accepts) {
    && (forall i :: 0 <= i < |events| ==> EventOk(session, events[i], accepts))
    && Increasing(events) && DistinctIds(events)
  }

  /** What a stored stream must satisfy. */
  ghost predicate Valid(session: string, stream: Stream, accepts: Accepts) {
    Sound(session, stream.events, accepts)
    && forall i :: 0 <= i < |stream.events| ==> stream.events[i].sequence < First(stream.next)
  }

  lemma SoundPrefix(session: string, events: seq<Event>, k: nat, accepts: Accepts)
    requires k <= |events| && Sound(session, events, accepts)
    ensures Sound(session, events[..k], accepts)
  {}

  /** One turn of the validation loop. */
  lemma SoundGrows(session: string, events: seq<Event>, k: nat, accepts: Accepts)
    requires k < |events| && Sound(session, events[..k], accepts)
    ensures Sound(session, events[..k + 1], accepts) <==>
            EventOk(session, events[k], accepts) && (k == 0 || events[k - 1].sequence < events[k].sequence)
            && events[k].id !in Ids(events[..k])
    ensures Ids(events[..k + 1]) == Ids(events[..k]) + {events[k].id}
  {
    var a, b := events[..k], events[..k + 1];
    IdsGrow(events, k);
    assert b == a + [events[k]] && b[k] == events[k];
    assert k > 0 ==> a[k - 1] == b[k - 1] == events[k - 1];
  }

  lemma LastIsLargest(session: string, stream: Stream, accepts: Accepts)
    requires Sound(session, stream.events, accepts)
    ensures Valid(session, stream, accepts) <==>
            stream.events == [] || stream.events[|stream.events| - 1].sequence < First(stream.next)
  {}

  /** `validateStoredEventStream` accepts exactly the valid streams and starts them at one. */
  method Validate(session: string, stream: Stream, accepts: Accepts) returns (r: Result<Stream, Error>)
    ensures r.Ok? <==> Valid(session, stream, accepts)
    ensures r.Ok? ==> r.value == stream.(next := First(stream.next))
  {
    hide Sound, Ids;
    var next := if stream.next == 0 then 1 else stream.next;
    var previous: nat := 0;
    var seen: set<string> := {};
    NothingIsSound(session, accepts);
    for k := 0 to |stream.events|
      invariant seen == Ids(stream.events[..k]) && Sound(session, stream.events[..k], accepts)
      invariant previous == if k == 0 then 0 else stream.events[k - 1].sequence
    {
      var e := stream.events[k];
      SoundGrows(session, stream.events, k, accepts);
      if Valid(session, stream, accepts) { SoundPrefix(session, stream.events, k + 1, accepts); }
      if e.session != session || e.sequence == 0 || e.sequence <= previous || e.createdAt == 0 {
        return Err(InvalidEvent(k));
      }
      if e.id in seen { return Err(DuplicateEvent(e.id)); }
      if !accepts(Origin(e)) { return Err(InvalidEvent(k)); }
      seen := seen + {e.id};
      previous := e.sequence;
    }
    assert stream.events[..|stream.events|] == stream.events;
    LastIsLargest(session, stream, accepts);
    if previous >= next { return Err(BadNext); }
    r := Ok(stream.(next := next));
  }

  /** What a stored stream is refused for. */
  lemma ValidRefuses(session: string, stream: Stream, accepts: Accepts, i: nat, j: nat)
    requires i < |stream.events|
    ensures var e := stream.events[i];
            e.session != session || e.sequence == 0 || e.createdAt == 0 || !accepts(Origin(e)) || (stream.next > 0 && e.sequence >= stream.next)
            ==> !Valid(session, stream, accepts)
    ensures i < j < |stream.events| && (stream.events[i].sequence >= stream.events[j].sequence || stream.events[i].id == stream.events[j].id)
            ==> !Valid(session, stream, accepts)
  {}

  lemma NothingIsSound(session: string, accepts: Accepts)
    ensures Sound(session, [], accepts) && Ids([]) == {}
  {}

  lemma IdsGrow(events: seq<Event>, k: nat)
    requires k < |events|
    ensures Ids(events[..k + 1]) == Ids(events[..k]) + {events[k].id}
    ensures events[k].id !in Ids(events[..k]) && DistinctIds(events[..k]) ==> DistinctIds(events[..k + 1])
  {}

  lemma AppendKeepsValid(stream: Stream, session: string, event: Runtime, now: int, accepts: Accepts)
    requires Valid(session, stream, accepts) && accepts(event) && now != 0
    requires Append(stream, session, event, now).Ok?
    ensures Valid(session, Append(stream, session, event, now).value.stream, accepts)
  {
    var r := Append(stream, session, event, now).value;
    if r.changed {
      assert r.stream.events == stream.events + [r.event];
      forall i | 0 <= i < |stream.events| ensures stream.events[i].id != event.id {
        assert stream.events[i].id in Ids(stream.events);
      }
      assert Origin(r.event) == event;
    }
  }

  /** A new event is the given one, created now, after all others of the stream; a known ID gives the
      stored event and changes nothing; only the last sequence is refused. */
  lemma AppendGives(stream: Stream, session: string, event: Runtime, now: int, accepts: Accepts)
    requires Valid(session, stream, accepts)
    ensures Append(stream, session, event, now).Err? <==> event.id !in Ids(stream.events) && First(stream.next) == MAX_SEQUENCE
    ensures Append(stream, session, event, now).Ok? ==>
              var r := Append(stream, session, event, now).value;
              && (r.changed <==> event.id !in Ids(stream.events)) && r.event.id == event.id && r.event in r.stream.events
              && (!r.changed ==> r.stream == stream)
              && (r.changed ==>
                    && Origin(r.event) == event && r.event.session == session && r.event.createdAt == now
                    && r.stream.events == stream.events + [r.event] && r.stream.next == r.event.sequence + 1
                    && forall e :: e in stream.events ==> e.sequence < r.event.sequence)
  {
    if Append(stream, session, event, now).Ok? && Append(stream, session, event, now).value.changed {
      var r := Append(stream, session, event, now).value;
      assert r.stream.events[|stream.events|] == r.event;
    }
  }

  /** Appending the same runtime event again, at any later time, returns the first event and
      changes nothing, however many other events came between. */
  lemma {:induction false} AppendIsIdempotent(stream: Stream, session: string, event: Runtime, now: int,
                           others: seq<Runtime>, times: seq<int>, later: int)
    requires |others| == |times| && Append(stream, session, event, now).Ok?
    requires DistinctIds(stream.events)
    ensures var r := Append(stream, session, event, now).value;
            var s := AppendAll(r.stream, session, others, times);
            r.event in s.events && Append(s, session, event, later) == Ok(Appended(s, r.event, false))
  {
    hide Append, AppendAll;
    var r := Append(stream, session, event, now).value;
    AppendStores(stream, session, event, now);
    var s := AppendAll(r.stream, session, others, times);
    AppendAllKeeps(r.stream, session, others, times);
    assert r.event in s.events && DistinctIds(s.events);
    FoundAgain(s, session, event, r.event, later);
  }

  function AppendAll(stream: Stream, session: string, events: seq<Runtime>, times: seq<int>): Stream
    requires |events| == |times|
    decreases |events|
  {
    if events == [] then stream else
      var r := Append(stream, session, events[0], times[0]);
      AppendAll(if r.Ok? then r.value.stream else stream, session, events[1..], times[1..])
  }

  lemma AppendStores(stream: Stream, session: string, event: Runtime, now: int)
    requires DistinctIds(stream.events) && Append(stream, session, event, now).Ok?
    ensures var r := Append(stream, session, event, now).value;
            r.event in r.stream.events && r.event.id == event.id && DistinctIds(r.stream.events)
            && stream.events <= r.stream.events
  {}

  lemma {:induction false} AppendAllKeeps(stream: Stream, session: string, events: seq<Runtime>, times: seq<int>)
    requires |events| == |times| && DistinctIds(stream.events)
    ensures stream.events <= AppendAll(stream, session, events, times).events
    ensures DistinctIds(AppendAll(stream, session, events, times).events)
    decreases |events|
  {
    hide Append, DistinctIds;
    if events != [] {
      var r := Append(stream, session, events[0], times[0]);
      if r.Ok? { AppendStores(stream, session, events[0], times[0]); }
      AppendAllKeeps(if r.Ok? then r.value.stream else stream, session, events[1..], times[1..]);
    }
  }

  lemma FoundAgain(stream: Stream, session: string, event: Runtime, e: Event, now: int)
    requires e in stream.events && e.id == event.id && DistinctIds(stream.events)
    ensures Append(stream, session, event, now) == Ok(Appended(stream, e, false))
  {}

  // ---- pages -------------------------------------------------------------

  const DEFAULT_PAGE := 100
  const MAX_PAGE := 1000
  const MAX_PAGE_BYTES: nat := 0x40_0000
  const ENVELOPE: nat := 64

  /** `normalizeEventQuery` on the limit. */
  function NormalLimit(limit: int): Option<nat> {
    var l := if limit == 0 then DEFAULT_PAGE else limit;
    if l < 1 || l > MAX_PAGE then None else Some(l)
  }

  lemma NormalLimitMeans(limit: int)
    ensures NormalLimit(limit).Some? <==> 0 <= limit <= 1000
    ensures limit == 0 ==> NormalLimit(limit) == Some(100)
    ensures 1 <= limit <= 1000 ==> NormalLimit(limit) == Some(limit)
  {}

  /** The length of an event's encoding. */
  type Size = Event -> nat

  datatype Page = Page(items: seq<Event>, next: nat)

  /** The next cursor is the last sequence listed. */
  function PageOf(items: seq<Event>): Page {
    Page(items, if items == [] then 0 else items[|items| - 1].sequence)
  }

  function Pending(events: seq<Event>, after: nat): seq<Event> {
    if events == [] then []
    else if events[|events| - 1].sequence > after then Pending(events[..|events| - 1], after) + [events[|events| - 1]]
    else Pending(events[..|events| - 1], after)
  }

  function Bytes(events: seq<Event>, size: Size): nat {
    if events == [] then ENVELOPE else Bytes(events[..|events| - 1], size) + size(events[|events| - 1]) + 1
  }

  /** `n` leading items may share a page: only a lone item may exceed the budget. */
  ghost predicate Fits(pending: seq<Event>, n: nat, limit: nat, size: Size) {
    n <= |pending| && n <= limit && (n <= 1 || Bytes(pending[..n], size) <= MAX_PAGE_BYTES)
  }

  /** A page is the longest prefix of the pending events that fits. */
  ghost predicate IsPage(pending: seq<Event>, limit: nat, size: Size, page: Page) {
    && page.items <= pending && Fits(pending, |page.items|, limit, size)
    && !Fits(pending, |page.items| + 1, limit, size)
    && page == PageOf(page.items)
  }

  lemma {:induction false} FitsDownward(pending: seq<Event>, n: nat, m: nat, limit: nat, size: Size)
    requires m <= n && Fits(pending, n, limit, size)
    ensures Fits(pending, m, limit, size)
    decreases n - m
  {
    if m < n {
      assert pending[..n][..n - 1] == pending[..n - 1];
      FitsDownward(pending, n - 1, m, limit, size);
    }
  }

  /** The pending events, the limit and the sizes determine the page. */
  lemma PageUnique(pending: seq<Event>, limit: nat, size: Size, a: Page, b: Page)
    requires IsPage(pending, limit, size, a) && IsPage(pending, limit, size, b)
    ensures a == b
  {
    hide Fits;
    if |a.items| < |b.items| { FitsDownward(pending, |b.items|, |a.items| + 1, limit, size); assert false; }
    if |b.items| < |a.items| { FitsDownward(pending, |a.items|, |b.items| + 1, limit, size); assert false; }
    assert a.items == pending[..|a.items|] && b.items == pending[..|b.items|];
  }

  /** A page is empty only when nothing is pending. */
  lemma PageProgress(pending: seq<Event>, limit: nat, size: Size, page: Page)
    requires IsPage(pending, limit, size, page) && limit >= 1
    ensures page.items == [] <==> pending == []
    ensures |page.items| <= 1 || Bytes(page.items, size) <= MAX_PAGE_BYTES
  {
    assert page.items == pending[..|page.items|];
  }

  /** A page takes 64 bytes, and each item its encoding and a separator. */
  function Sizes(events: seq<Event>, size: Size): nat {
    if events == [] then 0 else Sizes(events[..|events| - 1], size) + size(events[|events| - 1])
  }

  lemma {:induction false} BytesMeans(events: seq<Event>, size: Size)
    ensures Bytes(events, size) == 64 + |events| + Sizes(events, size)
  {
    if events != [] { BytesMeans(events[..|events| - 1], size); }
  }

  /** A page ends only at the last event, at the limit, or where the next item would exceed 4 MiB. */
  lemma PageStops(pending: seq<Event>, limit: nat, size: Size, page: Page)
    requires IsPage(pending, limit, size, page) && limit >= 1
    ensures page.items == pending || |page.items| == limit
            || (0 < |page.items| < |pending| && Bytes(page.items + [pending[|page.items|]], size) > 0x40_0000)
    ensures |page.items| > 1 ==> Bytes(page.items, size) <= 0x40_0000
  {
    var n := |page.items|;
    assert page.items == pending[..n];
    if n < |pending| && n < limit { assert pending[..n + 1] == pending[..n] + [pending[n]]; }
  }

  /** `appendEventPageItem`. */
  method AppendItem(items: seq<Event>, event: Event, bytes: nat, size: Size) returns (taken: bool, more: seq<Event>, total: nat)
    requires bytes == Bytes(items, size)
    ensures taken <==> items == [] || Bytes(items + [event], size) <= MAX_PAGE_BYTES
    ensures more == if taken then items + [event] else items
    ensures total == Bytes(more, size)
  {
    assert (items + [event])[..|items|] == items;
    var itemBytes := size(event) + 1;
    if |items| > 0 && bytes + itemBytes > MAX_PAGE_BYTES { return false, items, bytes; }
    return true, items + [event], bytes + itemBytes;
  }

  lemma {:induction false} PendingPrefix(events: seq<Event>, after: nat, k: nat)
    requires k <= |events|
    ensures Pending(events[..k], after) <= Pending(events, after)
    decreases |events| - k
  {
    if k < |events| {
      assert events[..k + 1][..k] == events[..k];
      PendingPrefix(events, after, k + 1);
    } else {
      assert events[..k] == events;
    }
  }

  lemma PendingNext(events: seq<Event>, after: nat, k: nat)
    requires k < |events|
    ensures Pending(events[..k + 1], after) ==
            Pending(events[..k], after) + (if events[k].sequence > after then [events[k]] else [])
    ensures Pending(events[..k + 1], after) <= Pending(events, after)
  {
    assert events[..k + 1][..k] == events[..k];
    PendingPrefix(events, after, k + 1);
  }

  lemma FitsNext(pending: seq<Event>, items: seq<Event>, event: Event, limit: nat, size: Size)
    requires items + [event] <= pending && |items| < limit
    ensures Fits(pending, |items| + 1, limit, size) <==> items == [] || Bytes(items + [event], size) <= MAX_PAGE_BYTES
  {
    assert pending[..|items| + 1] == items + [event];
  }

  lemma PageLimits(pending: seq<Event>, after: nat, limit: nat, size: Size)
    ensures Bytes([], size) == ENVELOPE && Pending([], after) == [] && Fits(pending, 0, limit, size)
    ensures !Fits(pending, |pending| + 1, limit, size) && !Fits(pending, limit + 1, limit, size)
  {}

  lemma PageEnds(pending: seq<Event>, items: seq<Event>, limit: nat, size: Size)
    requires items <= pending && Fits(pending, |items|, limit, size) && !Fits(pending, |items| + 1, limit, size)
    ensures IsPage(pending, limit, size, PageOf(items))
  {}

  /** `listAgentEvents`: skips events up to the cursor and stops at the first that does not fit. */
  method ListEvents(stream: Stream, after: nat, limit: nat, size: Size) returns (page: Page)
    requires 1 <= limit
    ensures IsPage(Pending(stream.events, after), limit, size, page)
  {
    hide Pending, Bytes, Fits, IsPage;
    ghost var pending := Pending(stream.events, after);
    PageLimits(pending, after, limit, size);
    var items: seq<Event> := [];
    var bytes := ENVELOPE;
    assert stream.events[..0] == [];
    for k := 0 to |stream.events|
      invariant items == Pending(stream.events[..k], after) && items <= pending && |items| < limit
      invariant bytes == Bytes(items, size) && Fits(pending, |items|, limit, size)
    {
      var event := stream.events[k];
      PendingNext(stream.events, after, k);
      if event.sequence > after {
        FitsNext(pending, items, event, limit, size);
        var taken, more, total := AppendItem(items, event, bytes, size);
        if !taken {
          PageEnds(pending, items, limit, size);
          return PageOf(items);
        }
        items, bytes := more, total;
        if |items| == limit {
          PageEnds(pending, items, limit, size);
          return PageOf(items);
        }
      }
    }
    assert stream.events[..|stream.events|] == stream.events;
    PageEnds(pending, items, limit, size);
    page := PageOf(items);
  }
}
