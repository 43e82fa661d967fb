/** Listing from SQL rows (`gateway/event_store_gorm.go`) and forwarding of a growing event log to
    a client (`gatewayrpc/server.go`): nothing is skipped, repeated or reordered. */
module EventStream {
  import opened Outcome
  import opened Text
  import opened EventLog

  // ---- the pending events ------------------------------------------------

  lemma {:induction false} PendingIsFilter(events: seq<Event>, after: nat)
    requires Increasing(events)
    ensures Increasing(Pending(events, after))
    ensures forall e :: e in Pending(events, after) <==> e in events && e.sequence > after
  {
    if events != [] {
      var init, last := events[..|events| - 1], events[|events| - 1];
      PendingIsFilter(init, after);
      assert events == init + [last];
      forall e | e in Pending(init, after) ensures e.sequence < last.sequence {
        var i :| 0 <= i < |init| && init[i] == e;
      }
    }
  }

  lemma {:induction false} NothingPending(events: seq<Event>, after: nat)
    requires forall i :: 0 <= i < |events| ==> events[i].sequence <= after
    ensures Pending(events, after) == []
  {
    if events != [] { NothingPending(events[..|events| - 1], after); }
  }

  lemma PendingBounds(events: seq<Event>, start: nat, k: nat)
    requires Increasing(events) && events != [] && k < |Pending(events[..|events| - 1], start)|
    ensures start < Pending(events[..|events| - 1], start)[k].sequence < events[|events| - 1].sequence
  {
    var init := events[..|events| - 1];
    PendingIsFilter(init, start);
    assert Pending(init, start)[k] in init;
  }

  /** Listing after the k-th pending event gives the rest of the pending events. */
  lemma {:induction false} PendingAfter(events: seq<Event>, start: nat, k: nat)
    requires Increasing(events) && 0 < k <= |Pending(events, start)|
    ensures Pending(events, Pending(events, start)[k - 1].sequence) == Pending(events, start)[k..]
  {
    var init, last := events[..|events| - 1], events[|events| - 1];
    var q, p := Pending(events, start), Pending(init, start);
    assert q == p + (if last.sequence > start then [last] else []);
    var x := q[k - 1].sequence;
    assert Pending(events, x) == Pending(init, x) + (if last.sequence > x then [last] else []);
    hide Pending;
    if k <= |p| {
      PendingBounds(events, start, k - 1);
      PendingAfter(init, start, k);
      hide Increasing;
      assert q[k..] == p[k..] + [last];
    } else {
      NothingPending(init, last.sequence);
    }
  }

  /** Listing on from the next cursor of a page gives exactly the rest. */
  lemma NextPageGoesOn(events: seq<Event>, after: nat, limit: nat, size: Size, page: Page)
    requires Increasing(events) && IsPage(Pending(events, after), limit, size, page) && page.items != []
    ensures Pending(events, after) == page.items + Pending(events, page.next)
    ensures page.next == page.items[|page.items| - 1].sequence > after
  {
    hide Fits, Pending, Increasing;
    var q, n := Pending(events, after), |page.items|;
    LeadingItems(q, page.items);
    PendingIsFilter(events, after);
    PendingAfter(events, after, n);
  }

  lemma LeadingItems(q: seq<Event>, items: seq<Event>)
    requires items != [] && items <= q
    ensures q == items + q[|items|..] && items[|items| - 1] == q[|items| - 1] && q[|items| - 1] in q
  {
    assert items == q[..|items|];
  }

  // ---- SQL listing -------------------------------------------------------

  /** `WHERE sequence > after ORDER BY sequence ASC LIMIT limit` over the session's rows. */
  ghost predicate Selected(table: set<Event>, after: nat, limit: nat, rows: seq<Event>) {
    && Increasing(rows) && |rows| <= limit
    && (forall i :: 0 <= i < |rows| ==> rows[i] in table && rows[i].sequence > after)
    && (forall e :: e in table && e.sequence > after && e !in rows ==>
          |rows| == limit && forall i :: 0 <= i < |rows| ==> rows[i].sequence < e.sequence)
  }

  lemma IndexOf(xs: seq<Event>, e: Event) returns (i: nat)
    requires e in Elements(xs) || e in xs
    ensures i < |xs| && xs[i] == e
  {
    i :| 0 <= i < |xs| && xs[i] == e;
  }

  lemma SelectedNext(p: seq<Event>, after: nat, limit: nat, rows: seq<Event>, k: nat)
    requires Increasing(p) && Selected(Elements(p), after, limit, rows) && k < |rows| && k <= |p|
    requires forall i :: 0 <= i < |p| ==> p[i].sequence > after
    requires forall i :: 0 <= i < k ==> rows[i] == p[i]
    ensures k < |p| && rows[k] == p[k]
  {
    var j := IndexOf(p, rows[k]);
    assert j >= k;
    assert p[k].sequence <= rows[k].sequence;
    assert p[k] in Elements(p);
    assert p[k] in rows;
    var m := IndexOf(rows, p[k]);
    hide Selected;
  }

  lemma {:induction false} SelectedAt(p: seq<Event>, after: nat, limit: nat, rows: seq<Event>, k: nat)
    requires Increasing(p) && Selected(Elements(p), after, limit, rows) && k <= |rows|
    requires forall i :: 0 <= i < |p| ==> p[i].sequence > after
    ensures k <= |p| && forall i :: 0 <= i < k ==> rows[i] == p[i]
  {
    hide Selected, Increasing;
    if k > 0 {
      SelectedAt(p, after, limit, rows, k - 1);
      SelectedNext(p, after, limit, rows, k - 1);
    }
  }

  function Min(a: nat, b: nat): nat { if a < b then a else b }

  /** The rows are the first pending events, as many as the limit allows. */
  lemma SelectedIsPrefix(p: seq<Event>, after: nat, limit: nat, rows: seq<Event>)
    requires Increasing(p) && Selected(Elements(p), after, limit, rows)
    requires forall i :: 0 <= i < |p| ==> p[i].sequence > after
    ensures |rows| == Min(limit, |p|) && rows == p[..|rows|]
  {
    SelectedAt(p, after, limit, rows, |rows|);
    if |rows| < |p| {
      var e := p[|rows|];
      forall i | 0 <= i < |rows| ensures rows[i] != e { assert rows[i] == p[i]; }
      assert e in Elements(p) && e !in rows;
    }
  }

  /** Limiting first and cutting by bytes afterwards gives the same page. */
  lemma LimitFirst(p: seq<Event>, limit: nat, size: Size, rows: seq<Event>, page: Page)
    requires |rows| == Min(limit, |p|) && rows == p[..|rows|] && IsPage(rows, limit, size, page)
    ensures IsPage(p, limit, size, page)
  {
    var n := |page.items|;
    assert rows[..n] == p[..n];
    if n < |rows| { assert rows[..n + 1] == p[..n + 1]; }
  }

  /** `listLocked` on the selected rows. */
  method ListRows(rows: seq<Event>, limit: nat, size: Size) returns (page: Page)
    requires |rows| <= limit
    ensures IsPage(rows, limit, size, page)
  {
    assert Bytes([], size) == ENVELOPE;
    assert Fits(rows, 0, limit, size) && !Fits(rows, |rows| + 1, limit, size);
    hide Bytes, Fits;
    var items: seq<Event> := [];
    var bytes := ENVELOPE;
    for k := 0 to |rows|
      invariant items == rows[..k] && bytes == Bytes(items, size) && Fits(rows, k, limit, size)
    {
      assert items + [rows[k]] == rows[..k + 1];
      FitsNext(rows, items, rows[k], limit, size);
      var taken, more, total := AppendItem(items, rows[k], bytes, size);
      if !taken { return PageOf(items); }
      items, bytes := more, total;
    }
    page := PageOf(items);
  }

  lemma SameSelection(a: set<Event>, b: set<Event>, after: nat, limit: nat, rows: seq<Event>)
    requires Selected(a, after, limit, rows)
    requires forall e :: e in b <==> e in a && e.sequence > after
    ensures Selected(b, after, limit, rows)
  {}

  /** Both stores answer a query with the same page. */
  lemma SameListing(events: seq<Event>, after: nat, limit: nat, size: Size, rows: seq<Event>, sql: Page, memory: Page)
    requires Increasing(events) && Selected(Elements(events), after, limit, rows)
    requires IsPage(rows, limit, size, sql)
    requires IsPage(Pending(events, after), limit, size, memory)
    ensures sql == memory
  {
    hide IsPage;
    var p := Pending(events, after);
    PendingIsFilter(events, after);
    SameSelection(Elements(events), Elements(p), after, limit, rows);
    hide Pending, Selected;
    SelectedIsPrefix(p, after, limit, rows);
    LimitFirst(p, limit, size, rows, sql);
    PageUnique(p, limit, size, sql, memory);
  }

  // ---- forwarding --------------------------------------------------------

  const STREAM_PAGE: nat := 1000

  /** `after` is the query cursor, `page` what is left of the page being sent. */
  datatype State = State(stream: Stream, after: nat, page: seq<Event>, sent: seq<Event>)

  datatype Step =
    | AppendEvent(event: Runtime, now: int)
    | Receive(page: Page)
    | Send

  /** `WaitEvents` returns once the page is not empty. */
  ghost predicate Enabled(s: State, step: Step, size: Size) {
    match step
    case AppendEvent(_, _) => true
    case Receive(page) =>
      s.page == [] && page.items != [] && IsPage(Pending(s.stream.events, s.after), STREAM_PAGE, size, page)
    case Send => s.page != []
  }

  function Next(s: State, step: Step, session: string): State {
    match step
    case AppendEvent(event, now) => (
      match Append(s.stream, session, event, now)
      case Err(_) => s
      case Ok(r) => s.(stream := r.stream))
    case Receive(page) => s.(page := page.items)
    case Send => if s.page == [] then s else
      s.(sent := s.sent + [s.page[0]], after := s.page[0].sequence, page := s.page[1..])
  }

  ghost predicate Ordered(stream: Stream) {
    Increasing(stream.events) && forall i :: 0 <= i < |stream.events| ==> stream.events[i].sequence < First(stream.next)
  }

  /** The log after the start cursor begins with what was sent and what is being sent. */
  ghost predicate Inv(s: State, start: nat) {
    && Ordered(s.stream) && s.sent + s.page <= Pending(s.stream.events, start)
    && s.after == if s.sent == [] then start else s.sent[|s.sent| - 1].sequence
  }

  lemma AppendKeeps(s: State, event: Runtime, now: int, session: string, start: nat)
    requires Inv(s, start)
    ensures Inv(Next(s, AppendEvent(event, now), session), start)
    ensures s.stream.events <= Next(s, AppendEvent(event, now), session).stream.events
  {
    var t := Next(s, AppendEvent(event, now), session);
    if t != s && t.stream.events != s.stream.events {
      assert t.stream.events[..|s.stream.events|] == s.stream.events;
      PendingPrefix(t.stream.events, start, |s.stream.events|);
    }
  }

  /** What is still pending for the client is what the log holds beyond what was sent. */
  lemma Remaining(s: State, start: nat)
    requires Inv(s, start)
    ensures Pending(s.stream.events, s.after) == Pending(s.stream.events, start)[|s.sent|..]
  {
    var q := Pending(s.stream.events, start);
    if s.sent != [] {
      assert q[|s.sent| - 1] == (s.sent + s.page)[|s.sent| - 1];
      PendingAfter(s.stream.events, start, |s.sent|);
    }
  }

  lemma ReceiveKeeps(s: State, page: Page, session: string, start: nat, size: Size)
    requires Inv(s, start) && Enabled(s, Receive(page), size)
    ensures Inv(Next(s, Receive(page), session), start)
  {
    hide Fits, Pending;
    Remaining(s, start);
    var q := Pending(s.stream.events, start);
    assert q == q[..|s.sent|] + q[|s.sent|..];
    assert s.sent == q[..|s.sent|];
  }

  lemma SendKeeps(s: State, session: string, start: nat)
    requires Inv(s, start) && s.page != []
    ensures Inv(Next(s, Send, session), start)
  {
    hide Pending;
    assert s.sent + [s.page[0]] + s.page[1..] == s.sent + s.page;
  }

  lemma StepKeeps(s: State, step: Step, session: string, start: nat, size: Size)
    requires Inv(s, start) && Enabled(s, step, size)
    ensures Inv(Next(s, step, session), start)
    ensures s.sent <= Next(s, step, session).sent && s.stream.events <= Next(s, step, session).stream.events
  {
    hide Inv;
    match step
    case AppendEvent(event, now) => AppendKeeps(s, event, now, session, start);
    case Receive(page) => ReceiveKeeps(s, page, session, start, size);
    case Send => SendKeeps(s, session, start);
  }

  ghost predicate Runs(s: State, steps: seq<Step>, t: State, session: string, size: Size)
    decreases |steps|
  {
    if steps == [] then t == s
    else Enabled(s, steps[0], size) && Runs(Next(s, steps[0], session), steps[1..], t, session, size)
  }

  lemma {:induction false} RunKeeps(s: State, steps: seq<Step>, t: State, session: string, start: nat, size: Size)
    requires Inv(s, start) && Runs(s, steps, t, session, size)
    ensures Inv(t, start) && s.sent <= t.sent
    decreases |steps|
  {
    hide Inv, Enabled, Next;
    if steps != [] {
      StepKeeps(s, steps[0], session, start, size);
      RunKeeps(Next(s, steps[0], session), steps[1..], t, session, start, size);
    }
  }

  /** With appends interleaved anywhere, the client receives a prefix of the log after its cursor,
      in increasing sequence; a forwarder with nothing in hand is blocked exactly when the client
      has the whole of it, and otherwise the page it gets sends at least one more event. */
  lemma GapFree(stream: Stream, start: nat, steps: seq<Step>, t: State, session: string, size: Size, page: Page)
    requires Ordered(stream) && Runs(State(stream, start, [], []), steps, t, session, size)
    requires IsPage(Pending(t.stream.events, t.after), STREAM_PAGE, size, page)
    ensures t.sent <= Pending(t.stream.events, start) && Increasing(t.sent)
    ensures t.page == [] ==> (page.items == [] <==> t.sent == Pending(t.stream.events, start))
    ensures t.page == [] && page.items != [] ==>
              t.sent + page.items <= Pending(t.stream.events, start)
              && (|page.items| <= 1 || Bytes(page.items, size) <= MAX_PAGE_BYTES)
  {
    hide Runs, Inv, IsPage;
    RunKeeps(State(stream, start, [], []), steps, t, session, start, size) by { StartInv(stream, start); }
    Delivered(t, start, size, page);
  }

  lemma StartInv(stream: Stream, start: nat)
    requires Ordered(stream)
    ensures Inv(State(stream, start, [], []), start)
  {}

  lemma Delivered(t: State, start: nat, size: Size, page: Page)
    requires Inv(t, start) && IsPage(Pending(t.stream.events, t.after), STREAM_PAGE, size, page)
    ensures t.sent <= Pending(t.stream.events, start) && Increasing(t.sent)
    ensures page.items == [] <==> t.sent == Pending(t.stream.events, start)
    ensures t.sent + page.items <= Pending(t.stream.events, start)
    ensures |page.items| <= 1 || Bytes(page.items, size) <= MAX_PAGE_BYTES
  {
    hide Fits, Bytes;
    var q := Pending(t.stream.events, start);
    PendingIsFilter(t.stream.events, start);
    Remaining(t, start);
    PageProgress(q[|t.sent|..], STREAM_PAGE, size, page);
    Cut(q, t.sent, t.page, page.items);
  }

  lemma Cut(q: seq<Event>, sent: seq<Event>, rest: seq<Event>, more: seq<Event>)
    requires sent + rest <= q && Increasing(q) && more <= q[|sent|..]
    ensures sent <= q && sent + more <= q && Increasing(sent) && (sent == q <==> q[|sent|..] == [])
  {}
}
