/** Cursors over the directory's change log: which pages a poll returns, when a cursor is
    refused, and that a polling client stays equal to the filtered listing. */
module RegistryPoll {
  import opened Outcome
  import opened Text
  import opened Registry
  import opened RegistryLog

  // ---- one page ----------------------------------------------------------

  ghost predicate Numbered(h: seq<Change>) { forall i :: 0 <= i < |h| ==> h[i].revision == i + 1 }

  /** A page is a stretch of the history from the cursor, cut only where the limit was reached. */
  ghost predicate PageOf(page: Page, h: seq<Change>, after: nat, q: Query, limit: nat) {
    && after <= page.next <= |h| == page.current
    && page.changes == Select(h[after..page.next], q)
    && |page.changes| <= limit
    && (page.next < |h| ==> |page.changes| == limit)
    && (after < |h| ==> after < page.next)
  }

  lemma {:induction false} ScanSkips(h: seq<Change>, p: nat, after: nat, q: Query, limit: nat)
    requires Numbered(h) && p <= after <= |h|
    ensures Scan(h[p..], after, q, limit, [], after, |h|) == Scan(h[after..], after, q, limit, [], after, |h|)
    decreases after - p
  {
    if p < after {
      ScanSkips(h, p + 1, after, q, limit);
      assert h[p..][1..] == h[p + 1..];
    }
  }

  /** Scanning from position p, past the cursor, with the stretch from `start` to p collected. */
  lemma {:induction false} ScanCollects(h: seq<Change>, p: nat, start: nat, after: nat, q: Query, limit: nat, got: seq<Change>, next: nat)
    requires Numbered(h) && after <= start <= p <= |h| && |got| < limit
    requires got == Select(h[start..p], q)
    ensures var page := Scan(h[p..], after, q, limit, got, next, |h|);
            PageOf(page, h, start, q, limit) && p <= page.next && (p < |h| ==> p < page.next)
    decreases |h| - p
  {
    hide Matches;
    if p == |h| {
      assert h[p..] == [];
    } else {
      SelectNext(h, start, p, q);
      assert h[p..][0] == h[p] && h[p..][1..] == h[p + 1..];
      if !Matches(h[p].instance.registration, q) {
        ScanCollects(h, p + 1, start, after, q, limit, got, h[p].revision);
      } else if |got| + 1 < limit {
        ScanCollects(h, p + 1, start, after, q, limit, got + [h[p]], h[p].revision);
      }
    }
  }

  lemma SelectNext(h: seq<Change>, after: nat, p: nat, q: Query)
    requires after <= p < |h|
    ensures Select(h[after..p + 1], q)
         == Select(h[after..p], q) + (if Matches(h[p].instance.registration, q) then [h[p]] else [])
  {
    var upto := h[after..p + 1];
    assert upto[..|upto| - 1] == h[after..p] && upto[|upto| - 1] == h[p];
  }

  /** A poll is refused exactly when the change after its cursor exists and was compacted away;
      otherwise its page is the selected stretch of the history, and the cursor moves on.
      Cursor 0 is never refused, so there the page is right only while nothing was dropped. */
  lemma PollFaithful(s: State, h: seq<Change>, after: nat, q: Query, limit: nat)
    requires Contiguous(s) && Recorded(s, h) && limit >= 1 && after <= s.revision
    requires after > 0 || |s.changes| == |h|
    ensures PollPruned(s, after, q, limit) == Err(CursorExpired) <==> after < |h| && h[after] !in s.changes
    ensures PollPruned(s, after, q, limit).Err? ==> PollPruned(s, after, q, limit).error == CursorExpired
    ensures PollPruned(s, after, q, limit).Ok? ==> PageOf(PollPruned(s, after, q, limit).value, h, after, q, limit)
  {
    hide Scan;
    if after < |h| { RetainedAt(s, h, after); }
    if PollPruned(s, after, q, limit).Ok? {
      ScanSkips(h, |h| - |s.changes|, after, q, limit);
      assert h[after..after] == [] && Select([], q) == [];
      ScanCollects(h, after, after, after, q, limit, [], after);
    }
  }

  lemma RetainedAt(s: State, h: seq<Change>, after: nat)
    requires Contiguous(s) && Recorded(s, h) && after < |h|
    ensures h[after] in s.changes <==> after >= |h| - |s.changes|
  {}

  /** A poll from cursor 0 is never refused: the guard skips the compaction check.  It reports the
      true beginning of the filtered history if and only if no dropped change was for this query. */
  lemma CursorZeroExact(s: State, h: seq<Change>, q: Query, limit: nat)
    requires Contiguous(s) && Recorded(s, h) && limit >= 1
    ensures PollPruned(s, 0, q, limit).Ok?
    ensures PageOf(PollPruned(s, 0, q, limit).value, h, 0, q, limit) <==> Select(h[..|h| - |s.changes|], q) == []
  {
    hide Scan;
    var dropped := |h| - |s.changes|;
    var page := PollPruned(s, 0, q, limit).value;
    assert h[dropped..dropped] == [] && Select([], q) == [];
    ScanCollects(h, dropped, dropped, 0, q, limit, [], 0);
    hide Select;
    SelectConcat(h[..dropped], h[dropped..page.next], q);
    assert h[0..page.next] == h[..dropped] + h[dropped..page.next];
  }

  /** Without a filter: if and only if the change of revision 1 is still in the log. */
  lemma CursorZeroUnfiltered(s: State, h: seq<Change>, limit: nat)
    requires Contiguous(s) && Recorded(s, h) && limit >= 1
    ensures PageOf(PollPruned(s, 0, ANY_QUERY, limit).value, h, 0, ANY_QUERY, limit)
            <==> (s.revision > 0 ==> s.changes[0].revision == 1)
  {
    hide Scan;
    CursorZeroExact(s, h, ANY_QUERY, limit);
    SelectAny(h[..|h| - |s.changes|]);
  }

  lemma {:induction false} SelectAny(log: seq<Change>)
    ensures Select(log, ANY_QUERY) == log
  {
    if log != [] {
      SelectAny(log[..|log| - 1]);
      assert log == log[..|log| - 1] + [log[|log| - 1]];
    }
  }

  lemma RegisterAdmits(w: World, r: Registration, id: string, token: string)
    requires MapKey(r.key) !in w.dir.instances && Expired(w.dir, 0) == {}
    ensures var w' := Next(w, DoRegister(Some(r), 10, 0, 1, id, Some(token)));
            w'.dir == Admit(w.dir, r, 10, 0, 1, id, token) && w'.drawn == w.drawn + {id}
  {
    assert SortedSet({}) == [];
  }

  /** A reachable directory in which a client that starts at cursor 0 misses a live instance:
      two registrations under a log bound of 1. */
  lemma CursorZeroLosesChanges(a: Registration, b: Registration)
    requires MapKey(a.key) != MapKey(b.key)
    ensures var ops := [DoRegister(Some(a), 10, 0, 1, "l1", Some("t1")), DoRegister(Some(b), 10, 0, 1, "l2", Some("t2"))];
            var w := Run(INITIAL, ops);
            && Permitted(INITIAL, ops)
            && MapKey(a.key) in View(w.dir, ANY_QUERY)
            && PollPruned(w.dir, 0, ANY_QUERY, 100).Ok?
            && var page := PollPruned(w.dir, 0, ANY_QUERY, 100).value;
            && page.next == w.dir.revision
            && MapKey(a.key) !in Replay(map[], page.changes)
  {
    hide Next, Register, Run, Permitted, Scan;
    var op1 := DoRegister(Some(a), 10, 0, 1, "l1", Some("t1"));
    var op2 := DoRegister(Some(b), 10, 0, 1, "l2", Some("t2"));
    RegisterAdmits(INITIAL, a, "l1", "t1");
    var w1 := Next(INITIAL, op1);
    RegisterAdmits(w1, b, "l2", "t2");
    RunTwo(INITIAL, op1, op2);
    var w2 := Next(w1, op2);
    var last := w2.dir.changes[0];
    OnlyPage(w2.dir, last);
    assert [last][..0] == [];
    assert Replay(map[], [last]) == Apply(Replay(map[], []), last);
  }

  lemma RunTwo(w: World, first: Op, second: Op)
    requires Allowed(w, first) && Allowed(Next(w, first), second)
    ensures Permitted(w, [first, second]) && Run(w, [first, second]) == Next(Next(w, first), second)
  {
    hide Next, Allowed;
    var w1 := Next(w, first);
    assert [first, second][1..] == [second] && [second][1..] == [];
    assert Permitted(w1, [second]) && Run(w1, [second]) == Run(Next(w1, second), []);
  }

  lemma OnlyPage(s: State, last: Change)
    requires s.changes == [last] && last.revision == s.revision > 0
    ensures PollPruned(s, 0, ANY_QUERY, 100) == Ok(Page([last], s.revision, s.revision))
  {
    assert [last][1..] == [] && [] + [last] == [last];
    assert Scan([last], 0, ANY_QUERY, 100, [], 0, s.revision) == Scan([], 0, ANY_QUERY, 100, [last], s.revision, s.revision);
  }

  // ---- draining ----------------------------------------------------------

  /** Polling page after page until the page reaches the current revision. */
  ghost function Drain(s: State, h: seq<Change>, after: nat, q: Query, limit: nat): (all: seq<Change>)
    requires Contiguous(s) && Recorded(s, h) && limit >= 1 && after <= s.revision
    requires after > 0 && PollPruned(s, after, q, limit).Ok?
    ensures all == Select(h[after..], q)
    decreases s.revision - after
  {
    DrainNext(s, h, after, q, limit);
    var page := PollPruned(s, after, q, limit).value;
    if page.next == s.revision then page.changes else page.changes + Drain(s, h, page.next, q, limit)
  }

  /** One page: what it holds comes first, and the next poll does not find its cursor expired. */
  lemma DrainNext(s: State, h: seq<Change>, after: nat, q: Query, limit: nat)
    requires Contiguous(s) && Recorded(s, h) && limit >= 1 && 0 < after <= s.revision && PollPruned(s, after, q, limit).Ok?
    ensures var page := PollPruned(s, after, q, limit).value;
            && after <= page.next <= s.revision && (page.next == after ==> after == s.revision)
            && Select(h[after..], q) == page.changes + (if page.next == s.revision then [] else Select(h[page.next..], q))
            && (page.next < s.revision ==> PollPruned(s, page.next, q, limit).Ok?)
  {
    hide Scan, Select, Contiguous;
    PollFaithful(s, h, after, q, limit);
    var page := PollPruned(s, after, q, limit).value;
    assert PageOf(page, h, after, q, limit);
    if page.next < s.revision { LaterCursorLives(s, h, after, page.next, q, limit); }
    SelectSplit(h, after, page.next, q);
  }

  lemma LaterCursorLives(s: State, h: seq<Change>, after: nat, later: nat, q: Query, limit: nat)
    requires Contiguous(s) && Recorded(s, h) && 0 < after <= later < s.revision && PollPruned(s, after, q, limit).Ok?
    ensures PollPruned(s, later, q, limit).Ok?
  {}

  lemma SelectSplit(h: seq<Change>, after: nat, next: nat, q: Query)
    requires after <= next <= |h|
    ensures Select(h[after..], q) == Select(h[after..next], q) + (if next == |h| then [] else Select(h[next..], q))
  {
    hide Select;
    SelectConcat(h[after..next], h[next..], q);
    assert h[after..] == h[after..next] + h[next..];
    if next == |h| { assert h[after..next] == h[after..]; }
  }

  // ---- a client among other callers --------------------------------------

  datatype Client = Client(view: map<string, Core>, cursor: nat, seen: seq<Change>)

  datatype Event = Call(op: Op) | ClientPoll(limit: int, now: int, max: nat)

  ghost function EventWorld(w: World, e: Event): World {
    match e
    case Call(op) => Next(w, op)
    case ClientPoll(limit, now, max) => if PageLimit(limit).None? then w else Next(w, DoRead(now, max))
  }

  /** The client applies a page it receives and keeps its state on any error. */
  ghost function EventClient(w: World, c: Client, e: Event, q: Query): Client {
    match e
    case Call(_) => c
    case ClientPoll(limit, now, max) =>
      var answer := Poll(w.dir, Some(q), c.cursor, limit, now, max).answer;
      if answer.Err? then c
      else Client(Replay(c.view, answer.value.changes), answer.value.next, c.seen + answer.value.changes)
  }

  ghost predicate EventAllowed(w: World, e: Event) {
    match e
    case Call(op) => Allowed(w, op)
    case ClientPoll(_, _, max) => max >= 1
  }

  ghost predicate EventsAllowed(w: World, events: seq<Event>)
    decreases |events|
  {
    events == [] || (EventAllowed(w, events[0]) && EventsAllowed(EventWorld(w, events[0]), events[1..]))
  }

  ghost function EventsWorld(w: World, events: seq<Event>): World
    decreases |events|
  {
    if events == [] then w else EventsWorld(EventWorld(w, events[0]), events[1..])
  }

  ghost function EventsClient(w: World, c: Client, events: seq<Event>, q: Query): Client
    decreases |events|
  {
    if events == [] then c else EventsClient(EventWorld(w, events[0]), EventClient(w, c, events[0], q), events[1..], q)
  }

  // ---- from what a client may start ----------------------------------------

  ghost function Slot(view: map<string, Core>, key: string): Option<Core> { if key in view then Some(view[key]) else None }

  ghost predicate HeldAt(base: map<string, Core>, h: seq<Change>, q: Query, key: string, r: nat) {
    r <= |h| && Slot(base, key) == Slot(Replay(map[], Select(h[..r], q)), key)
  }

  ghost predicate HeldSince(base: map<string, Core>, h: seq<Change>, start: nat, q: Query, key: string) {
    exists r :: start <= r <= |h| && HeldAt(base, h, q, key, r)
  }

  /** Every key shows its place in the listing of some revision since `start`, not the same for all. */
  ghost predicate Collected(base: map<string, Core>, h: seq<Change>, start: nat, q: Query) {
    0 < start <= |h| && forall key :: HeldSince(base, h, start, q, key)
  }

  ghost predicate Touches(changes: seq<Change>, key: string) {
    exists i :: 0 <= i < |changes| && MapKey(changes[i].instance.registration.key) == key
  }

  /** A change of a key overwrites whatever a client held for it ... */
  lemma {:induction false} TouchedAgree(a: map<string, Core>, b: map<string, Core>, changes: seq<Change>, key: string)
    requires Touches(changes, key)
    ensures Slot(Replay(a, changes), key) == Slot(Replay(b, changes), key)
  {
    hide MapKey;
    var init, last := changes[..|changes| - 1], changes[|changes| - 1];
    if MapKey(last.instance.registration.key) != key {
      var i :| 0 <= i < |changes| && MapKey(changes[i].instance.registration.key) == key;
      assert init[i] == changes[i];
      TouchedAgree(a, b, init, key);
    }
  }

  /** ... and without one it stays. */
  lemma {:induction false} UntouchedStays(view: map<string, Core>, changes: seq<Change>, key: string)
    requires !Touches(changes, key)
    ensures Slot(Replay(view, changes), key) == Slot(view, key)
  {
    hide MapKey;
    if changes != [] {
      var init := changes[..|changes| - 1];
      assert forall i :: 0 <= i < |init| ==> init[i] == changes[i];
      UntouchedStays(view, init, key);
    }
  }

  lemma CollectedKey(base: map<string, Core>, h: seq<Change>, start: nat, q: Query, key: string)
    requires Collected(base, h, start, q)
    ensures Slot(Replay(base, Select(h[start..], q)), key) == Slot(Replay(map[], Select(h, q)), key)
  {
    hide Select, Replay;
    var later, first := Select(h[start..], q), Replay(map[], Select(h[..start], q));
    SelectConcat(h[..start], h[start..], q);
    ReplayConcat(map[], Select(h[..start], q), later);
    assert h == h[..start] + h[start..];
    if Touches(later, key) {
      TouchedAgree(base, first, later, key);
    } else {
      UntouchedStays(base, later, key);
      UntouchedStays(first, later, key);
      assert HeldSince(base, h, start, q, key);
      var r :| start <= r <= |h| && HeldAt(base, h, q, key, r);
      SinceStart(h, start, r, q, key);
    }
  }

  /** What no later change touches was so at the start. */
  lemma SinceStart(h: seq<Change>, start: nat, r: nat, q: Query, key: string)
    requires start <= r <= |h| && !Touches(Select(h[start..], q), key)
    ensures Slot(Replay(map[], Select(h[..r], q)), key) == Slot(Replay(map[], Select(h[..start], q)), key)
  {
    hide Select, Replay, MapKey;
    var part, rest := Select(h[start..r], q), Select(h[r..], q);
    SelectConcat(h[start..r], h[r..], q);
    assert h[start..] == h[start..r] + h[r..];
    assert forall i :: 0 <= i < |part| ==> part[i] == (part + rest)[i];
    SelectConcat(h[..start], h[start..r], q);
    assert h[..r] == h[..start] + h[start..r];
    ReplayConcat(map[], Select(h[..start], q), part);
    UntouchedStays(Replay(map[], Select(h[..start], q)), part, key);
  }

  /** Replaying everything since `start` turns it into the listing of the whole history. */
  lemma CollectedRebuilds(base: map<string, Core>, h: seq<Change>, start: nat, q: Query)
    requires Collected(base, h, start, q)
    ensures Replay(base, Select(h[start..], q)) == Replay(map[], Select(h, q))
  {
    hide Select, Replay, HeldSince;
    var a, b := Replay(base, Select(h[start..], q)), Replay(map[], Select(h, q));
    forall key ensures Slot(a, key) == Slot(b, key) { CollectedKey(base, h, start, q, key); }
    SameSlots(a, b);
  }

  lemma SameSlots(a: map<string, Core>, b: map<string, Core>)
    requires forall key :: Slot(a, key) == Slot(b, key)
    ensures a == b
  {
    assert forall key :: key in a ==> Slot(a, key) == Slot(b, key);
    assert forall key :: key in b ==> Slot(a, key) == Slot(b, key);
  }

  lemma HeldSinceGrows(base: map<string, Core>, h: seq<Change>, h': seq<Change>, start: nat, q: Query, key: string)
    requires HeldSince(base, h, start, q, key) && h <= h'
    ensures HeldSince(base, h', start, q, key)
  {
    var r :| start <= r <= |h| && HeldAt(base, h, q, key, r);
    assert h'[..r] == h[..r];
    assert HeldAt(base, h', q, key, r);
  }

  lemma CollectedGrows(base: map<string, Core>, h: seq<Change>, h': seq<Change>, start: nat, q: Query)
    requires Collected(base, h, start, q) && h <= h'
    ensures Collected(base, h', start, q)
  {
    hide HeldSince;
    forall key ensures HeldSince(base, h', start, q, key) { HeldSinceGrows(base, h, h', start, q, key); }
  }

  // ---- following the log ---------------------------------------------------

  /** The client started from `base` and has applied each change since `start` once. */
  ghost predicate Synced(c: Client, h: seq<Change>, start: nat, base: map<string, Core>, q: Query) {
    && 0 < start <= c.cursor <= |h|
    && c.view == Replay(base, c.seen)
    && c.seen == Select(h[start..c.cursor], q)
  }

  lemma SyncedPage(c: Client, page: Page, h: seq<Change>, start: nat, base: map<string, Core>, q: Query, limit: nat)
    requires Synced(c, h, start, base, q) && PageOf(page, h, c.cursor, q, limit)
    ensures Synced(Client(Replay(c.view, page.changes), page.next, c.seen + page.changes), h, start, base, q)
  {
    var step := h[c.cursor..page.next];
    assert h[start..page.next] == h[start..c.cursor] + step;
    SelectConcat(h[start..c.cursor], step, q);
    ReplayConcat(base, c.seen, Select(step, q));
  }

  lemma EventKeeps(w: World, c: Client, e: Event, start: nat, base: map<string, Core>, q: Query)
    requires Sound(w, q) && Synced(c, w.history, start, base, q) && EventAllowed(w, e)
    ensures Sound(EventWorld(w, e), q) && Synced(EventClient(w, c, e, q), EventWorld(w, e).history, start, base, q)
    ensures w.history <= EventWorld(w, e).history
  {
    hide Sound, Synced, Next, Replay, PollPruned;
    var w' := EventWorld(w, e);
    if e.Call? {
      StepSound(w, e.op, q);
      SyncedGrows(c, w.history, w'.history, start, base, q);
    } else if PageLimit(e.limit).Some? {
      StepSound(w, DoRead(e.now, e.max), q);
      SyncedGrows(c, w.history, w'.history, start, base, q);
      ClientPollKeeps(w, c, e, start, base, q);
    }
  }

  lemma SyncedGrows(c: Client, h: seq<Change>, h': seq<Change>, start: nat, base: map<string, Core>, q: Query)
    requires Synced(c, h, start, base, q) && h <= h'
    ensures Synced(c, h', start, base, q)
  {
    assert h'[start..c.cursor] == h[start..c.cursor];
  }

  lemma ClientPollKeeps(w: World, c: Client, e: Event, start: nat, base: map<string, Core>, q: Query)
    requires e.ClientPoll? && PageLimit(e.limit).Some?
    requires Sound(EventWorld(w, e), q) && Synced(c, EventWorld(w, e).history, start, base, q)
    ensures Synced(EventClient(w, c, e, q), EventWorld(w, e).history, start, base, q)
  {
    hide Sound, Replay, Prune, PruneLog, Scan;
    var w', limit := EventWorld(w, e), PageLimit(e.limit).value;
    SoundIsContiguous(w', q);
    PollFaithful(w'.dir, w'.history, c.cursor, q, limit);
    var answer := PollPruned(w'.dir, c.cursor, q, limit);
    if answer.Ok? { SyncedPage(c, answer.value, w'.history, start, base, q, limit); }
  }

  lemma SoundIsContiguous(w: World, q: Query)
    requires Sound(w, q)
    ensures Contiguous(w.dir) && Recorded(w.dir, w.history)
  {}

  /** The log agrees with the state.  A client lists, in one page or in several while the directory
      changes, and then polls from the revision of its first page, with any other calls in between:
      what it has seen is every selected change since, once and in order, and whenever its cursor is
      current its copy equals the filtered listing. */
  lemma ClientRebuildsListing(w: World, c: Client, events: seq<Event>, start: nat, base: map<string, Core>, q: Query)
    requires Sound(w, q) && Synced(c, w.history, start, base, q) && Collected(base, w.history, start, q) && EventsAllowed(w, events)
    ensures var w', c' := EventsWorld(w, events), EventsClient(w, c, events, q);
            && Sound(w', q) && w.history <= w'.history && start <= c'.cursor <= |w'.history|
            && c'.seen == Select(w'.history[start..c'.cursor], q)
            && (c'.cursor == w'.dir.revision ==> c'.view == View(w'.dir, q))
  {
    hide Inv, Fenced, EventsWorld, EventsClient, EventsAllowed, Select, Replay, Collected;
    EventsKeep(w, c, events, start, base, q);
    var w', c' := EventsWorld(w, events), EventsClient(w, c, events, q);
    CollectedGrows(base, w.history, w'.history, start, q);
    CollectedRebuilds(base, w'.history, start, q);
    assert w'.history[start..|w'.history|] == w'.history[start..];
  }

  lemma {:induction false} EventsKeep(w: World, c: Client, events: seq<Event>, start: nat, base: map<string, Core>, q: Query)
    requires Sound(w, q) && Synced(c, w.history, start, base, q) && EventsAllowed(w, events)
    ensures var w', c' := EventsWorld(w, events), EventsClient(w, c, events, q);
            Sound(w', q) && w.history <= w'.history && Synced(c', w'.history, start, base, q)
    decreases |events|
  {
    hide Sound, Synced, EventWorld, EventClient;
    if events != [] {
      EventKeeps(w, c, events[0], start, base, q);
      EventsKeep(EventWorld(w, events[0]), EventClient(w, c, events[0], q), events[1..], start, base, q);
    }
  }

  /** A listing taken in one piece is a valid start. */
  lemma ListedClientIsSynced(w: World, q: Query)
    requires Sound(w, q) && w.dir.revision > 0
    ensures Synced(Client(View(w.dir, q), w.dir.revision, []), w.history, w.dir.revision, View(w.dir, q), q)
    ensures Collected(View(w.dir, q), w.history, w.dir.revision, q)
  {
    var h, r := w.history, w.dir.revision;
    assert h[..r] == h && h[r..r] == [];
    forall key ensures HeldSince(View(w.dir, q), h, r, q, key) { assert HeldAt(View(w.dir, q), h, q, key, r); }
  }

  // ---- fencing -----------------------------------------------------------

  /** A lease ID that was drawn and is no longer live. */
  ghost predicate Retired(w: World, id: string) { id in w.drawn && id !in w.dir.leases }

  lemma StepKeepsRetired(w: World, op: Op, id: string)
    requires Inv(w.dir) && Allowed(w, op) && Retired(w, id)
    ensures Retired(Next(w, op), id)
  {
    hide Inv, Prune, PruneLog;
    match op
    case DoRegister(r, ttl, now, max, drawn, token) => PruneExact(w.dir, now, max);
    case DoRead(now, max) => PruneExact(w.dir, now, max);
    case DoRenew(c, ttl, now, max) => if c.id in w.dir.leases { RemoveKeeps(w.dir, c.id, Expire, now, max); }
    case DoUnregister(c, now, max) =>
      if c.id in w.dir.leases {
        RemoveKeeps(w.dir, c.id, Expire, now, max);
        RemoveKeeps(w.dir, c.id, Delete, now, max);
      }
  }

  /** A removed lease ID never works again, whatever happens afterwards. */
  lemma {:induction false} RetiredForever(w: World, ops: seq<Op>, id: string, token: string, ttl: int, now: int, max: nat)
    requires Sound(w, ANY_QUERY) && Permitted(w, ops) && Retired(w, id) && ttl > 0
    ensures var w' := Run(w, ops);
            && Retired(w', id)
            && Renew(w'.dir, Credential(id, token), ttl, now, max) == Effect(w'.dir, [], Err(LeaseNotFound))
            && Unregister(w'.dir, Credential(id, token), now, max) == Effect(w'.dir, [], Err(LeaseNotFound))
    decreases |ops|
  {
    if ops != [] {
      StepSound(w, ops[0], ANY_QUERY);
      StepKeepsRetired(w, ops[0], id);
      RetiredForever(Next(w, ops[0]), ops[1..], id, token, ttl, now, max);
    }
  }

  /** Each successful registration of a key gets a strictly larger epoch, over every run. */
  lemma EpochsStrictlyIncrease(ops: seq<Op>, i: nat, j: nat)
    requires Permitted(INITIAL, ops)
    ensures i < j < |Run(INITIAL, ops).grants|
            && MapKey(Run(INITIAL, ops).grants[i].key) == MapKey(Run(INITIAL, ops).grants[j].key)
            ==> Run(INITIAL, ops).grants[i].epoch < Run(INITIAL, ops).grants[j].epoch
  {
    InitialSound(ANY_QUERY);
    RunSound(INITIAL, ops, ANY_QUERY);
  }
}
