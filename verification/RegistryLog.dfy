/** What every directory operation keeps, and why a client that replays the change log of
    registry/state.go rebuilds the filtered listing. */
module RegistryLog {
  import opened Outcome
  import opened Text
  import opened Registry

  // ---- invariant ---------------------------------------------------------

  ghost predicate InstanceLinked(s: State, key: string)
    requires key in s.instances
  {
    var stored := s.instances[key];
    && MapKey(stored.instance.registration.key) == key
    && stored.leaseId in s.leases
    && var lease := s.leases[stored.leaseId];
    && lease.key == stored.instance.registration.key
    && lease.epoch == stored.instance.epoch == EpochOf(s, key)
    && lease.expiresAt == stored.instance.expiresAt
  }

  ghost predicate LeaseLinked(s: State, id: string)
    requires id in s.leases
  {
    var lease := s.leases[id];
    && lease.id == id && lease.token != ""
    && MapKey(lease.key) in s.instances
    && s.instances[MapKey(lease.key)].leaseId == id
  }

  /** Live instances and leases are in bijection, and an instance's epoch is its key's newest. */
  ghost predicate Linked(s: State) {
    && (forall key :: key in s.instances ==> InstanceLinked(s, key))
    && (forall id :: id in s.leases ==> LeaseLinked(s, id))
  }

  /** The retained log is a contiguous run of revisions that ends at the current one. */
  ghost predicate Contiguous(s: State) {
    && |s.changes| <= s.revision
    && (s.revision > 0 ==> |s.changes| > 0)
    && forall i :: 0 <= i < |s.changes| ==> s.changes[i].revision == s.revision - |s.changes| + 1 + i
  }

  ghost predicate Inv(s: State) { Linked(s) && Contiguous(s) }

  /** The checks of `validate`, one by one. */
  ghost predicate Validates(s: State) {
    && (forall key :: key in s.instances ==>
          var stored := s.instances[key];
          && MapKey(stored.instance.registration.key) == key
          && stored.leaseId in s.leases
          && var lease := s.leases[stored.leaseId];
          && lease.key == stored.instance.registration.key
          && lease.epoch == stored.instance.epoch
          && lease.expiresAt == stored.instance.expiresAt
          && EpochOf(s, key) >= stored.instance.epoch)
    && (forall id :: id in s.leases ==>
          var lease := s.leases[id];
          && lease.id == id && lease.token != ""
          && MapKey(lease.key) in s.instances && s.instances[MapKey(lease.key)].leaseId == id)
    && (forall i :: 0 <= i < |s.changes| ==>
          && (if i == 0 then 0 else s.changes[i - 1].revision) < s.changes[i].revision <= s.revision)
  }

  lemma InvValidates(s: State)
    requires Inv(s)
    ensures Validates(s)
  {}

  /** Joined keys are unambiguous as long as no part contains the separator, which
      the resource name pattern guarantees. */
  lemma {:induction false} MapKeyInjective(a: InstanceKey, b: InstanceKey)
    requires 0 as char !in a.space && 0 as char !in a.name && 0 as char !in a.instanceId
    requires 0 as char !in b.space && 0 as char !in b.name && 0 as char !in b.instanceId
    requires MapKey(a) == MapKey(b)
    ensures a == b
  {
    var nul := [0 as char];
    assert MapKey(a) == a.space + nul + (a.name + nul + a.instanceId);
    assert MapKey(b) == b.space + nul + (b.name + nul + b.instanceId);
    SplitUnique(a.space, a.name + nul + a.instanceId, b.space, b.name + nul + b.instanceId);
    SplitUnique(a.name, a.instanceId, b.name, b.instanceId);
  }

  lemma SplitUnique(x: string, x': string, y: string, y': string)
    requires 0 as char !in x && 0 as char !in y
    requires x + [0 as char] + x' == y + [0 as char] + y'
    ensures x == y && x' == y'
  {
    var whole := x + [0 as char] + x';
    assert whole[|x|] == 0 as char;
    assert (y + [0 as char] + y')[|y|] == 0 as char;
    assert |x| == |y|;
    assert x == whole[..|x|] == y;
    assert x' == whole[|x| + 1..] == y';
  }

  // ---- one removal -------------------------------------------------------

  lemma RemoveKeeps(s: State, id: string, kind: ChangeKind, now: int, max: nat)
    requires Inv(s) && id in s.leases && max >= 1
    ensures var key := MapKey(s.leases[id].key);
            var s' := RemoveLease(s, s.leases[id], kind, now, max);
            && Inv(s')
            && s'.leases == s.leases - {id}
            && s'.instances == s.instances - {key}
            && s'.epochs == s.epochs
            && s'.revision == s.revision + 1
            && RemovalOf(s, s.leases[id], kind, now) == [s'.changes[|s'.changes| - 1]]
            && s'.changes == Retained(s.changes + RemovalOf(s, s.leases[id], kind, now), max)
  {
    var s' := RemoveLease(s, s.leases[id], kind, now, max);
    assert LeaseLinked(s, id);
    forall k | k in s'.instances ensures InstanceLinked(s', k) { assert InstanceLinked(s, k); }
    forall i | i in s'.leases ensures LeaseLinked(s', i) {
      assert LeaseLinked(s, i);
    }
  }

  ghost function Holders(instances: map<string, StoredInstance>, ids: set<string>): set<string> {
    set key | key in instances && instances[key].leaseId in ids
  }

  lemma HoldersSplit(s: State, id: string, rest: set<string>)
    requires Linked(s) && id in s.leases
    ensures Holders(s.instances, {id} + rest)
         == {MapKey(s.leases[id].key)} + Holders(s.instances - {MapKey(s.leases[id].key)}, rest)
  {
    assert LeaseLinked(s, id);
    forall k | k in s.instances ensures k == MapKey(s.leases[id].key) <==> s.instances[k].leaseId == id {
      assert InstanceLinked(s, k);
    }
  }

  /** Expiring a list of live leases removes exactly them and their instances. */
  lemma {:induction false} ExpireEachKeeps(s: State, ids: seq<string>, now: int, max: nat)
    requires Inv(s) && max >= 1 && Ascending(ids) && Elements(ids) <= s.leases.Keys
    ensures var s' := ExpireEach(s, ids, now, max);
            && Inv(s')
            && s'.leases == s.leases - Elements(ids)
            && s'.instances == s.instances - Holders(s.instances, Elements(ids))
            && s'.epochs == s.epochs
            && s'.revision == s.revision + |ids|
    decreases |ids|
  {
    hide Inv, RemoveLease, Holders, Ascending, Linked, MapKey, RemovalOf, Retained;
    if ids != [] {
      RestOf(ids);
      RemoveKeeps(s, ids[0], Expire, now, max);
      InvIsLinked(s);
      HoldersSplit(s, ids[0], Elements(ids[1..]));
      ExpireEachKeeps(RemoveLease(s, s.leases[ids[0]], Expire, now, max), ids[1..], now, max);
    } else {
      NoHolders(s.instances);
      assert Elements(ids) == {};
    }
  }

  lemma NoHolders(instances: map<string, StoredInstance>)
    ensures Holders(instances, {}) == {}
  {}

  lemma InvIsLinked(s: State)
    requires Inv(s)
    ensures Linked(s)
  {}

  lemma RestOf(ids: seq<string>)
    requires ids != [] && Ascending(ids)
    ensures Ascending(ids[1..]) && Elements(ids) == {ids[0]} + Elements(ids[1..])
    ensures ids[0] in Elements(ids) && ids[0] !in Elements(ids[1..])
  {
    LessIrreflexive(ids[0]);
    assert ids == [ids[0]] + ids[1..];
  }

  ghost function Lapsed(s: State, now: int): set<string> {
    set key | key in s.instances && s.instances[key].instance.expiresAt <= now
  }

  /** `pruneExpired` removes exactly the leases that are not after `now`, with their instances. */
  lemma PruneExact(s: State, now: int, max: nat)
    requires Inv(s) && max >= 1
    ensures var s' := Prune(s, now, max);
            && Inv(s')
            && s'.leases == s.leases - Expired(s, now)
            && s'.instances == s.instances - Lapsed(s, now)
            && s'.epochs == s.epochs
            && s'.revision == s.revision + |Expired(s, now)|
  {
    var ids := SortedSet(Expired(s, now));
    ExpireEachKeeps(s, ids, now, max);
    AscendingSize(ids);
    forall k | k in s.instances
      ensures k in Holders(s.instances, Elements(ids)) <==> k in Lapsed(s, now)
    {
      assert InstanceLinked(s, k);
    }
  }

  lemma {:induction false} AscendingSize(xs: seq<string>)
    requires Ascending(xs)
    ensures |Elements(xs)| == |xs|
  {
    if xs != [] {
      AscendingSize(xs[1..]);
      RestOf(xs);
    }
  }

  lemma PublishContiguous(s: State, s': State, change: Change, max: nat)
    requires Contiguous(s) && max >= 1 && change.revision == s.revision + 1
    requires s'.revision == s.revision + 1 && s'.changes == Retained(s.changes + [change], max)
    ensures Contiguous(s')
  {}

  lemma AdmitLinked(s: State, s': State, key: string, stored: StoredInstance, lease: Lease)
    requires Linked(s) && key !in s.instances && lease.id !in s.leases
    requires s'.instances == s.instances[key := stored] && s'.leases == s.leases[lease.id := lease]
    requires s'.epochs == s.epochs[key := lease.epoch]
    requires MapKey(lease.key) == key && lease.token != "" && stored.leaseId == lease.id
    requires stored.instance.registration.key == lease.key
    requires lease.epoch == stored.instance.epoch && lease.expiresAt == stored.instance.expiresAt
    ensures Linked(s')
  {
    hide MapKey;
    forall k | k in s'.instances ensures InstanceLinked(s', k) {
      if k != key { assert InstanceLinked(s, k); }
    }
    forall i | i in s'.leases ensures LeaseLinked(s', i) {
      if i != lease.id { assert LeaseLinked(s, i); }
    }
  }

  lemma AdmitKeeps(s: State, r: Registration, expiresAt: int, now: int, max: nat, id: string, token: string)
    requires Inv(s) && max >= 1 && MapKey(r.key) !in s.instances && id !in s.leases && token != ""
    ensures Inv(Admit(s, r, expiresAt, now, max, id, token))
  {
    hide MapKey, Linked, Contiguous;
    var s', key := Admit(s, r, expiresAt, now, max, id, token), MapKey(r.key);
    PublishContiguous(s, s', Change(s.revision + 1, Upsert, s'.instances[key].instance), max);
    AdmitLinked(s, s', key, s'.instances[key], s'.leases[id]);
  }

  lemma ExtendKeeps(s: State, id: string, expiresAt: int, now: int)
    requires Inv(s) && id in s.leases && MapKey(s.leases[id].key) in s.instances
    ensures Inv(Extend(s, id, expiresAt, now))
  {
    var s' := Extend(s, id, expiresAt, now);
    assert LeaseLinked(s, id);
    forall k | k in s'.instances ensures InstanceLinked(s', k) { assert InstanceLinked(s, k); }
    forall i | i in s'.leases ensures LeaseLinked(s', i) { assert LeaseLinked(s, i); }
  }

  // ---- replay ------------------------------------------------------------

  /** An instance without the two times that a renewal rewrites in place. */
  datatype Core = Core(registration: Registration, registeredAt: int, revision: nat, epoch: nat)

  function CoreOf(instance: Instance): Core {
    Core(instance.registration, instance.registeredAt, instance.revision, instance.epoch)
  }

  /** The filtered listing of a state. */
  ghost function View(s: State, q: Query): map<string, Core> { Listing(s.instances, q) }

  ghost function Listing(instances: map<string, StoredInstance>, q: Query): map<string, Core> {
    map k | k in instances && Matches(instances[k].instance.registration, q) :: CoreOf(instances[k].instance)
  }

  lemma ListingWithout(instances: map<string, StoredInstance>, key: string, q: Query)
    ensures Listing(instances - {key}, q) == Listing(instances, q) - {key}
    ensures key in instances && !Matches(instances[key].instance.registration, q)
            ==> Listing(instances - {key}, q) == Listing(instances, q)
  {}

  lemma ListingWith(instances: map<string, StoredInstance>, key: string, stored: StoredInstance, q: Query)
    requires key !in instances
    ensures Listing(instances[key := stored], q)
         == if Matches(stored.instance.registration, q) then Listing(instances, q)[key := CoreOf(stored.instance)]
            else Listing(instances, q)
  {}

  lemma ListingTouched(instances: map<string, StoredInstance>, key: string, stored: StoredInstance, q: Query)
    requires key in instances && CoreOf(stored.instance) == CoreOf(instances[key].instance)
    ensures Listing(instances[key := stored], q) == Listing(instances, q)
  {}

  /** The changes of a log that a query selects, in order. */
  function Select(log: seq<Change>, q: Query): seq<Change> {
    if log == [] then []
    else Select(log[..|log| - 1], q)
         + (if Matches(log[|log| - 1].instance.registration, q) then [log[|log| - 1]] else [])
  }

  function Apply(view: map<string, Core>, change: Change): map<string, Core> {
    var key := MapKey(change.instance.registration.key);
    if change.kind == Upsert then view[key := CoreOf(change.instance)] else view - {key}
  }

  /** What a client holds after applying a list of changes to the listing it started from. */
  function Replay(view: map<string, Core>, changes: seq<Change>): map<string, Core> {
    if changes == [] then view else Apply(Replay(view, changes[..|changes| - 1]), changes[|changes| - 1])
  }

  lemma {:induction false} SelectConcat(a: seq<Change>, b: seq<Change>, q: Query)
    ensures Select(a + b, q) == Select(a, q) + Select(b, q)
  {
    if b == [] {
      assert a + b == a;
    } else {
      var c := b[..|b| - 1];
      SelectConcat(a, c, q);
      assert (a + b)[..|a + b| - 1] == a + c;
    }
  }

  lemma {:induction false} ReplayConcat(view: map<string, Core>, a: seq<Change>, b: seq<Change>)
    ensures Replay(view, a + b) == Replay(Replay(view, a), b)
  {
    if b == [] {
      assert a + b == a;
    } else {
      ReplayConcat(view, a, b[..|b| - 1]);
      assert (a + b)[..|a + b| - 1] == a + b[..|b| - 1];
    }
  }

  /** `h` is the complete change history of `s`: numbered from 1, and `s` retains a suffix of it. */
  ghost predicate Recorded(s: State, h: seq<Change>) {
    && |h| == s.revision && |s.changes| <= |h|
    && (forall i :: 0 <= i < |h| ==> h[i].revision == i + 1)
    && s.changes == h[|h| - |s.changes|..]
  }

  /** The history explains the state: replaying what `q` selects gives the filtered listing. */
  ghost predicate Explains(h: seq<Change>, s: State, q: Query) {
    Recorded(s, h) && View(s, q) == Replay(map[], Select(h, q))
  }

  lemma RecordOne(s: State, s': State, h: seq<Change>, change: Change, max: nat)
    requires Recorded(s, h) && max >= 1
    requires change.revision == s.revision + 1 == s'.revision
    requires s'.changes == Retained(s.changes + [change], max)
    ensures Recorded(s', h + [change])
  {}

  lemma ReplayOne(h: seq<Change>, change: Change, q: Query)
    ensures Replay(map[], Select(h + [change], q))
         == if Matches(change.instance.registration, q) then Apply(Replay(map[], Select(h, q)), change)
            else Replay(map[], Select(h, q))
  {
    assert (h + [change])[..|h|] == h;
    if Matches(change.instance.registration, q) {
      var chosen := Select(h, q);
      assert (chosen + [change])[..|chosen|] == chosen;
    } else {
      assert Select(h + [change], q) == Select(h, q);
    }
  }

  lemma RemoveExplained(s: State, id: string, kind: ChangeKind, now: int, max: nat, h: seq<Change>, q: Query)
    requires Inv(s) && id in s.leases && max >= 1 && kind != Upsert && Explains(h, s, q)
    ensures Explains(h + RemovalOf(s, s.leases[id], kind, now), RemoveLease(s, s.leases[id], kind, now, max), q)
  {
    var lease := s.leases[id];
    var s' := RemoveLease(s, lease, kind, now, max);
    RemoveKeeps(s, id, kind, now, max);
    var change := RemovalOf(s, lease, kind, now)[0];
    assert LeaseLinked(s, id) && InstanceLinked(s, MapKey(lease.key));
    RecordOne(s, s', h, change, max);
    ReplayOne(h, change, q);
    ListingWithout(s.instances, MapKey(lease.key), q);
  }

  lemma {:induction false} ExpireEachExplained(s: State, ids: seq<string>, now: int, max: nat, h: seq<Change>, q: Query)
    requires Inv(s) && max >= 1 && Explains(h, s, q) && Ascending(ids) && Elements(ids) <= s.leases.Keys
    ensures Explains(h + ExpireEachLog(s, ids, now, max), ExpireEach(s, ids, now, max), q)
    decreases |ids|
  {
    hide Explains, Inv;
    if ids == [] {
      assert h + [] == h;
    } else {
      var lease := s.leases[ids[0]];
      var removal := RemovalOf(s, lease, Expire, now);
      RemoveKeeps(s, ids[0], Expire, now, max);
      RemoveExplained(s, ids[0], Expire, now, max, h, q);
      RestOf(ids);
      var s1 := RemoveLease(s, lease, Expire, now, max);
      ExpireEachExplained(s1, ids[1..], now, max, h + removal, q);
      assert h + removal + ExpireEachLog(s1, ids[1..], now, max) == h + ExpireEachLog(s, ids, now, max);
    }
  }

  lemma PruneExplained(s: State, now: int, max: nat, h: seq<Change>, q: Query)
    requires Inv(s) && max >= 1 && Explains(h, s, q)
    ensures Inv(Prune(s, now, max)) && Explains(h + PruneLog(s, now, max), Prune(s, now, max), q)
  {
    var ids := SortedSet(Expired(s, now));
    PruneExact(s, now, max);
    ExpireEachExplained(s, ids, now, max, h, q);
  }

  lemma AdmitExplained(s: State, r: Registration, expiresAt: int, now: int, max: nat, id: string, token: string,
                       h: seq<Change>, q: Query)
    requires Inv(s) && max >= 1 && MapKey(r.key) !in s.instances && Explains(h, s, q)
    ensures var s' := Admit(s, r, expiresAt, now, max, id, token);
            Explains(h + [Change(s.revision + 1, Upsert, s'.instances[MapKey(r.key)].instance)], s', q)
  {
    hide MapKey, Inv, Recorded, Retained, Select, Replay, Matches;
    var s' := Admit(s, r, expiresAt, now, max, id, token);
    var change := Change(s.revision + 1, Upsert, s'.instances[MapKey(r.key)].instance);
    RecordOne(s, s', h, change, max);
    ReplayOne(h, change, q);
    ListingWith(s.instances, MapKey(r.key), s'.instances[MapKey(r.key)], q);
  }

  // ---- runs of operations ------------------------------------------------

  /** One call on the directory.  `max` is the configured log bound, at least 1 in every directory. */
  datatype Op =
    | DoRegister(normalized: Option<Registration>, ttl: int, now: int, max: nat, id: string, token: Option<string>)
    | DoRenew(credential: Credential, ttl: int, now: int, max: nat)
    | DoUnregister(credential: Credential, now: int, max: nat)
    | DoRead(now: int, max: nat)     // get, list and poll change the state only by pruning

  /** The directory, its complete history, every lease ever granted, and every lease ID ever drawn. */
  datatype World = World(dir: State, history: seq<Change>, grants: seq<Lease>, drawn: set<string>)

  const INITIAL := World(EMPTY, [], [], {})

  ghost predicate Allowed(w: World, op: Op) {
    && op.max >= 1
    && (op.DoRegister? ==> op.id !in w.drawn && (op.token.Some? ==> op.token.value != ""))
  }

  ghost function Next(w: World, op: Op): World {
    match op
    case DoRegister(r, ttl, now, max, id, token) =>
      var e := Register(w.dir, r, ttl, now, max, id, token);
      World(e.state, w.history + e.emitted, if e.answer.Ok? then w.grants + [e.answer.value] else w.grants, w.drawn + {id})
    case DoRenew(c, ttl, now, max) =>
      var e := Renew(w.dir, c, ttl, now, max);
      w.(dir := e.state, history := w.history + e.emitted)
    case DoUnregister(c, now, max) =>
      var e := Unregister(w.dir, c, now, max);
      w.(dir := e.state, history := w.history + e.emitted)
    case DoRead(now, max) =>
      w.(dir := Prune(w.dir, now, max), history := w.history + PruneLog(w.dir, now, max))
  }

  ghost predicate Permitted(w: World, ops: seq<Op>)
    decreases |ops|
  {
    ops == [] || (Allowed(w, ops[0]) && Permitted(Next(w, ops[0]), ops[1..]))
  }

  ghost function Run(w: World, ops: seq<Op>): World
    decreases |ops|
  {
    if ops == [] then w else Run(Next(w, ops[0]), ops[1..])
  }

  /** Every grant is older than or equal to its key's recorded epoch, later grants of a key
      have larger epochs, and live lease IDs were drawn. */
  ghost predicate Fenced(w: World) {
    && (forall i :: 0 <= i < |w.grants| ==> w.grants[i].epoch <= EpochOf(w.dir, MapKey(w.grants[i].key)))
    && (forall i, j :: 0 <= i < j < |w.grants| && MapKey(w.grants[i].key) == MapKey(w.grants[j].key) ==>
          w.grants[i].epoch < w.grants[j].epoch)
    && (forall id :: id in w.dir.leases ==> id in w.drawn)
  }

  ghost predicate Sound(w: World, q: Query) { Inv(w.dir) && Fenced(w) && Explains(w.history, w.dir, q) }

  lemma InitialSound(q: Query)
    ensures Sound(INITIAL, q)
  {
    assert View(EMPTY, q) == map[];
  }

  lemma RegisterExplained(s: State, h: seq<Change>, r: Option<Registration>, ttl: int, now: int, max: nat, id: string,
                          token: Option<string>, q: Query)
    requires Inv(s) && Explains(h, s, q) && max >= 1 && id !in s.leases && (token.Some? ==> token.value != "")
    ensures var e := Register(s, r, ttl, now, max, id, token); Inv(e.state) && Explains(h + e.emitted, e.state, q)
  {
    hide Explains, Inv, Admit, Prune, PruneLog;
    if ttl <= 0 || r.None? {
      assert h + [] == h;
    } else {
      PruneExplained(s, now, max, h, q);
      PruneExact(s, now, max);
      var pruned, log := Prune(s, now, max), PruneLog(s, now, max);
      if MapKey(r.value.key) !in pruned.instances && token.Some? {
        AdmitKeeps(pruned, r.value, now + ttl, now, max, id, token.value);
        AdmitExplained(pruned, r.value, now + ttl, now, max, id, token.value, h + log, q);
        var e := Register(s, r, ttl, now, max, id, token);
        assert h + e.emitted == h + log + [e.emitted[|log|]];
      }
    }
  }

  lemma ExtendExplained(s: State, id: string, expiresAt: int, now: int, h: seq<Change>, q: Query)
    requires id in s.leases && MapKey(s.leases[id].key) in s.instances && Explains(h, s, q)
    ensures Explains(h, Extend(s, id, expiresAt, now), q)
  {
    hide MapKey;
    var key := MapKey(s.leases[id].key);
    ListingTouched(s.instances, key, Extend(s, id, expiresAt, now).instances[key], q);
  }

  lemma RenewExplained(s: State, h: seq<Change>, c: Credential, ttl: int, now: int, max: nat, q: Query)
    requires Inv(s) && Explains(h, s, q) && max >= 1
    ensures var e := Renew(s, c, ttl, now, max); Inv(e.state) && Explains(h + e.emitted, e.state, q)
  {
    hide Inv, Explains, Extend, RemoveLease, RemovalOf, MapKey;
    assert h + [] == h;
    if ttl > 0 && c.id in s.leases {
      if s.leases[c.id].expiresAt <= now {
        RemoveKeeps(s, c.id, Expire, now, max);
        RemoveExplained(s, c.id, Expire, now, max, h, q);
      } else if Renew(s, c, ttl, now, max).answer.Ok? {
        ExtendKeeps(s, c.id, now + ttl, now);
        ExtendExplained(s, c.id, now + ttl, now, h, q);
      }
    }
  }

  lemma UnregisterExplained(s: State, h: seq<Change>, c: Credential, now: int, max: nat, q: Query)
    requires Inv(s) && Explains(h, s, q) && max >= 1
    ensures var e := Unregister(s, c, now, max); Inv(e.state) && Explains(h + e.emitted, e.state, q)
  {
    hide Inv, Explains;
    assert h + [] == h;
    if c.id in s.leases {
      var kind := if s.leases[c.id].expiresAt <= now then Expire else Delete;
      RemoveKeeps(s, c.id, kind, now, max);
      RemoveExplained(s, c.id, kind, now, max, h, q);
    }
  }

  lemma StepExplained(w: World, op: Op, q: Query)
    requires Inv(w.dir) && Fenced(w) && Explains(w.history, w.dir, q) && Allowed(w, op)
    ensures Inv(Next(w, op).dir) && Explains(Next(w, op).history, Next(w, op).dir, q)
  {
    hide Inv, Explains, Register, Renew, Unregister, Prune, PruneLog;
    match op
    case DoRegister(r, ttl, now, max, id, token) => RegisterExplained(w.dir, w.history, r, ttl, now, max, id, token, q);
    case DoRead(now, max) => PruneExplained(w.dir, now, max, w.history, q);
    case DoRenew(c, ttl, now, max) => RenewExplained(w.dir, w.history, c, ttl, now, max, q);
    case DoUnregister(c, now, max) => UnregisterExplained(w.dir, w.history, c, now, max, q);
  }

  /** Epochs never fall, leases only appear under the drawn ID, and a grant has its key's next epoch. */
  lemma StepFenced(w: World, op: Op)
    requires Inv(w.dir) && Fenced(w) && Allowed(w, op)
    ensures Fenced(Next(w, op))
  {
    hide Inv, Prune, PruneLog, RemoveLease, RemovalOf, Retained, MapKey;
    match op
    case DoRegister(r, ttl, now, max, id, token) => PruneExact(w.dir, now, max);
    case DoRead(now, max) => PruneExact(w.dir, now, max);
    case DoRenew(c, ttl, now, max) => if c.id in w.dir.leases { RemoveKeeps(w.dir, c.id, Expire, now, max); }
    case DoUnregister(c, now, max) =>
      if c.id in w.dir.leases {
        RemoveKeeps(w.dir, c.id, Expire, now, max);
        RemoveKeeps(w.dir, c.id, Delete, now, max);
      }
  }

  lemma StepSound(w: World, op: Op, q: Query)
    requires Sound(w, q) && Allowed(w, op)
    ensures Sound(Next(w, op), q)
    ensures w.history <= Next(w, op).history && w.grants <= Next(w, op).grants && w.drawn <= Next(w, op).drawn
  {
    hide Inv, Explains, Fenced, Register, Renew, Unregister, Prune, PruneLog;
    StepExplained(w, op, q);
    StepFenced(w, op);
  }

  /** Directory invariants and fencing over every run: what `validate` checks always holds,
      the log explains the state for every query, and history only grows. */
  lemma {:induction false} RunSound(w: World, ops: seq<Op>, q: Query)
    requires Sound(w, q) && Permitted(w, ops)
    ensures Sound(Run(w, ops), q) && Validates(Run(w, ops).dir)
    ensures w.history <= Run(w, ops).history && w.grants <= Run(w, ops).grants && w.drawn <= Run(w, ops).drawn
    decreases |ops|
  {
    hide Inv, Explains, Fenced, Next, Validates;
    if ops == [] {
      InvValidates(w.dir);
    } else {
      StepSound(w, ops[0], q);
      RunSound(Next(w, ops[0]), ops[1..], q);
    }
  }
}
