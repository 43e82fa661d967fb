/** Listing in several pages while the directory changes: each page is taken from the state of its
    own moment, and a client that then polls from the revision of the first page still rebuilds
    the filtered listing. */
module RegistryListing {
  import opened Outcome
  import opened Text
  import opened Registry
  import opened RegistryLog
  import opened RegistryPoll
  import opened Directory

  // ---- one page -------------------------------------------------------------

  /** The client adds the instances of a page to what it has. */
  function Absorb(view: map<string, Core>, items: seq<Instance>): map<string, Core> {
    if items == [] then view
    else Absorb(view, items[..|items| - 1])[MapKey(items[|items| - 1].registration.key) := CoreOf(items[|items| - 1])]
  }

  lemma {:induction false} AbsorbSlot(view: map<string, Core>, items: seq<Instance>, keys: seq<string>, cores: map<string, Core>, key: string)
    requires |items| == |keys|
    requires forall i :: 0 <= i < |items| ==>
               MapKey(items[i].registration.key) == keys[i] && keys[i] in cores && CoreOf(items[i]) == cores[keys[i]]
    ensures Slot(Absorb(view, items), key) == if key in keys then Some(cores[key]) else Slot(view, key)
  {
    hide MapKey;
    if items != [] {
      var n := |items| - 1;
      AbsorbSlot(view, items[..n], keys[..n], cores, key);
      assert keys == keys[..n] + [keys[n]];
    }
  }

  /** The keys a page shows. */
  ghost function Shown(s: State, q: Query, after: string, limit: nat): seq<string> {
    var keys := SortedSet(Listed(s, q, after));
    if |keys| > limit then keys[..limit] else keys
  }

  /** Beyond the next cursor of a page. */
  predicate Beyond(next: Option<string>, key: string) { next.Some? && Less(next.value, key) }

  lemma CutKeys(keys: seq<string>, limit: nat, key: string)
    requires Ascending(keys) && 1 <= limit < |keys|
    ensures key in keys[..limit] <==> key in keys && !Less(keys[limit - 1], key)
  {
    hide Less;
    LessIrreflexive(key);
    if key in keys[..limit] {
      var i :| 0 <= i < limit && keys[..limit][i] == key;
      assert keys[i] == key;
      if i < limit - 1 && Less(keys[limit - 1], key) { LessTransitive(key, keys[limit - 1], key); }
    }
    if key in keys && !Less(keys[limit - 1], key) {
      var i :| 0 <= i < |keys| && keys[i] == key;
      assert i < limit && keys[..limit][i] == key;
    }
  }

  /** A page shows exactly the listed keys after its cursor and not beyond its next one. */
  lemma ShownKeys(s: State, q: Query, after: string, limit: nat, key: string)
    requires limit >= 1
    ensures key in Shown(s, q, after, limit) <==> key in Listed(s, q, after) && !Beyond(ListPage(s, q, after, limit).next, key)
    ensures ListPage(s, q, after, limit).next.Some? ==> Less(after, ListPage(s, q, after, limit).next.value)
  {
    hide Less, Listed;
    var keys := SortedSet(Listed(s, q, after));
    assert key in keys <==> key in Elements(keys);
    if |keys| > limit {
      CutKeys(keys, limit, key);
      assert keys[limit - 1] in Elements(keys);
      ListedIsAfter(s, q, after, keys[limit - 1]);
    }
  }

  lemma ListedIsAfter(s: State, q: Query, after: string, key: string)
    requires key in Listed(s, q, after)
    ensures Less(after, key)
  {}

  /** For the keys between its two cursors a page tells what the filtered listing holds. */
  lemma PageTells(s: State, q: Query, after: string, limit: nat, view: map<string, Core>, key: string)
    requires Linked(s) && limit >= 1 && (Less(after, key) ==> key !in view)
    ensures var page := ListPage(s, q, after, limit);
            Slot(Absorb(view, page.items), key)
            == if Less(after, key) && !Beyond(page.next, key) then Slot(View(s, q), key) else Slot(view, key)
  {
    hide Less, MapKey, Absorb;
    var page, shown := ListPage(s, q, after, limit), Shown(s, q, after, limit);
    var cores := map k | k in s.instances :: CoreOf(s.instances[k].instance);
    forall i | 0 <= i < |shown|
      ensures shown[i] in s.instances && page.items[i] == s.instances[shown[i]].instance && MapKey(page.items[i].registration.key) == shown[i]
    {
      assert shown[i] in shown;
      ShownKeys(s, q, after, limit, shown[i]);
      assert InstanceLinked(s, shown[i]);
    }
    AbsorbSlot(view, page.items, shown, cores, key);
    ShownKeys(s, q, after, limit, key);
  }

  // ---- page after page -----------------------------------------------------

  /** `next` is the cursor of the next page, none when the last page was taken; `start` is the
      revision of the first page. */
  datatype Lister = Lister(view: map<string, Core>, next: Option<string>, start: nat)

  datatype ListEvent = Other(op: Op) | NextPage(limit: nat, now: int, max: nat)

  ghost function ListWorld(w: World, e: ListEvent): World {
    match e
    case Other(op) => Next(w, op)
    case NextPage(_, now, max) => Next(w, DoRead(now, max))
  }

  ghost predicate ListAllowed(w: World, e: ListEvent) {
    match e
    case Other(op) => Allowed(w, op)
    case NextPage(limit, _, max) => 1 <= limit <= MAX_PAGE_SIZE && max >= 1
  }

  ghost function Take(l: Lister, s: State, limit: nat, q: Query): Lister
    requires limit >= 1
  {
    if l.next.None? then l else
      var page := ListPage(s, q, l.next.value, limit);
      Lister(Absorb(l.view, page.items), page.next, l.start)
  }

  ghost function ListStep(w: World, l: Lister, e: ListEvent, q: Query): Lister
    requires ListAllowed(w, e)
  {
    if e.Other? then l else Take(l, ListWorld(w, e).dir, e.limit, q)
  }

  /** The first page of a listing. */
  ghost function FirstPage(s: State, limit: nat, q: Query): Lister
    requires limit >= 1
  {
    Take(Lister(map[], Some(""), s.revision), s, limit, q)
  }

  /** Keys up to the next cursor were seen at some revision since the first page, the others not yet. */
  ghost predicate Gathered(l: Lister, h: seq<Change>, q: Query) {
    && 0 < l.start <= |h|
    && forall key :: if Beyond(l.next, key) then key !in l.view else HeldSince(l.view, h, l.start, q, key)
  }

  lemma TakeGathers(l: Lister, w: World, limit: nat, q: Query)
    requires Sound(w, q) && limit >= 1 && l.next.Some? && 0 < l.start <= |w.history|
    requires forall key :: if Beyond(l.next, key) then key !in l.view else HeldSince(l.view, w.history, l.start, q, key)
    ensures Gathered(Take(l, w.dir, limit, q), w.history, q)
  {
    var t := Take(l, w.dir, limit, q);
    forall key ensures if Beyond(t.next, key) then key !in t.view else HeldSince(t.view, w.history, t.start, q, key) {
      TakeKey(l, w, limit, q, key);
    }
  }

  lemma TakeKey(l: Lister, w: World, limit: nat, q: Query, key: string)
    requires Sound(w, q) && limit >= 1 && l.next.Some? && l.start <= |w.history|
    requires if Beyond(l.next, key) then key !in l.view else HeldSince(l.view, w.history, l.start, q, key)
    ensures var t := Take(l, w.dir, limit, q);
            if Beyond(t.next, key) then key !in t.view else HeldSince(t.view, w.history, t.start, q, key)
  {
    hide Less, Absorb, ListPage, Fenced, Select, Replay;
    var t, h := Take(l, w.dir, limit, q), w.history;
    var after := l.next.value;
    PageTells(w.dir, q, after, limit, l.view, key);
    ShownKeys(w.dir, q, after, limit, key);
    if Less(after, key) {
      if !Beyond(t.next, key) {
        assert h[..|h|] == h;
        assert HeldAt(t.view, h, q, key, |h|);
      }
    } else {
      if Beyond(t.next, key) { LessTransitive(after, t.next.value, key); assert false; }
      var r :| l.start <= r <= |h| && HeldAt(l.view, h, q, key, r);
      assert HeldAt(t.view, h, q, key, r);
    }
  }

  lemma GatheredGrows(l: Lister, h: seq<Change>, h': seq<Change>, q: Query)
    requires Gathered(l, h, q) && h <= h'
    ensures Gathered(l, h', q)
  {
    hide HeldSince;
    forall key ensures if Beyond(l.next, key) then key !in l.view else HeldSince(l.view, h', l.start, q, key) {
      if !Beyond(l.next, key) { HeldSinceGrows(l.view, h, h', l.start, q, key); }
    }
  }

  lemma ListStepKeeps(w: World, l: Lister, e: ListEvent, q: Query)
    requires Sound(w, q) && Gathered(l, w.history, q) && ListAllowed(w, e)
    ensures Sound(ListWorld(w, e), q) && Gathered(ListStep(w, l, e, q), ListWorld(w, e).history, q)
    ensures w.history <= ListWorld(w, e).history
  {
    hide Sound, Next;
    var w' := ListWorld(w, e);
    StepSound(w, if e.Other? then e.op else DoRead(e.now, e.max), q);
    GatheredGrows(l, w.history, w'.history, q);
    if e.NextPage? && l.next.Some? { TakeGathers(l, w', e.limit, q); }
  }

  // ---- runs ------------------------------------------------------------------

  ghost predicate ListsTo(w: World, l: Lister, events: seq<ListEvent>, q: Query, w': World, l': Lister)
    decreases |events|
  {
    if events == [] then w' == w && l' == l
    else ListAllowed(w, events[0]) && ListsTo(ListWorld(w, events[0]), ListStep(w, l, events[0], q), events[1..], q, w', l')
  }

  lemma {:induction false} ListingKeeps(w: World, l: Lister, events: seq<ListEvent>, q: Query, w': World, l': Lister)
    requires Sound(w, q) && Gathered(l, w.history, q) && ListsTo(w, l, events, q, w', l')
    ensures Sound(w', q) && Gathered(l', w'.history, q)
    decreases |events|
  {
    hide Sound, Gathered, ListWorld, ListStep, ListAllowed;
    if events != [] {
      ListStepKeeps(w, l, events[0], q);
      ListingKeeps(ListWorld(w, events[0]), ListStep(w, l, events[0], q), events[1..], q, w', l');
    }
  }

  lemma FirstPageGathers(w: World, limit: nat, q: Query)
    requires Sound(w, q) && w.dir.revision > 0 && limit >= 1
    ensures Gathered(FirstPage(w.dir, limit, q), w.history, q)
  {
    hide Fenced, Select, Replay;
    var l, h := Lister(map[], Some(""), w.dir.revision), w.history;
    forall key ensures if Beyond(l.next, key) then key !in l.view else HeldSince(l.view, h, l.start, q, key) {
      if !Beyond(l.next, key) {
        NoEmptyKey(w.dir, q);
        assert key == "" && h[..|h|] == h;
        assert HeldAt(l.view, h, q, key, |h|);
      }
    }
    TakeGathers(l, w, limit, q);
  }

  lemma NoEmptyKey(s: State, q: Query)
    requires Linked(s)
    ensures "" !in View(s, q)
  {
    forall key | key in s.instances ensures key != "" { assert InstanceLinked(s, key); }
  }

  /** A client that pages through the listing while the directory changes, with any calls between
      the pages, and then polls from the revision of the first page is on the way to the listing:
      it may be handed to `ClientRebuildsListing`. */
  lemma PagedListingIsStart(w: World, limit: nat, events: seq<ListEvent>, q: Query, w': World, l': Lister)
    requires Sound(w, q) && w.dir.revision > 0 && limit >= 1
    requires ListsTo(w, FirstPage(w.dir, limit, q), events, q, w', l') && l'.next.None?
    ensures Sound(w', q) && Collected(l'.view, w'.history, l'.start, q)
    ensures Synced(Client(l'.view, l'.start, []), w'.history, l'.start, l'.view, q)
  {
    hide Sound, ListsTo, FirstPage, HeldSince;
    FirstPageGathers(w, limit, q);
    ListingKeeps(w, FirstPage(w.dir, limit, q), events, q, w', l');
    assert w'.history[l'.start..l'.start] == [];
  }

  /** Paging, then polling: whenever the cursor is current the copy equals the filtered listing. */
  lemma PagedClientRebuildsListing(w: World, limit: nat, pages: seq<ListEvent>, w1: World, l: Lister, events: seq<Event>, q: Query)
    requires Sound(w, q) && w.dir.revision > 0 && limit >= 1
    requires ListsTo(w, FirstPage(w.dir, limit, q), pages, q, w1, l) && l.next.None? && EventsAllowed(w1, events)
    ensures var w', c' := EventsWorld(w1, events), EventsClient(w1, Client(l.view, l.start, []), events, q);
            && l.start <= c'.cursor <= |w'.history| && c'.seen == Select(w'.history[l.start..c'.cursor], q)
            && (c'.cursor == w'.dir.revision ==> c'.view == View(w'.dir, q))
  {
    hide Sound, ListsTo, FirstPage, EventsWorld, EventsClient, EventsAllowed, Synced, Collected;
    PagedListingIsStart(w, limit, pages, q, w1, l);
    ClientRebuildsListing(w1, Client(l.view, l.start, []), events, l.start, l.view, q);
  }
}
