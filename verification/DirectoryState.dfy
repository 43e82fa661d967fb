/** registry/state.go in its own form: one object whose methods update the three maps, the
    revision and the change log in place.  Each method is proved against the function of the
    same name in Registry.dfy. */
module Directory {
  import opened Outcome
  import opened Text
  import opened Registry
  import RegistryLog

  datatype DiscoveryPage = DiscoveryPage(items: seq<Instance>, next: Option<string>, revision: nat)

  /** The map keys a listing may return: selected by the query and beyond the page cursor. */
  ghost function Listed(s: State, q: Query, after: string): set<string> {
    set key | key in s.instances && Less(after, key) && Matches(s.instances[key].instance.registration, q)
  }

  /** The instances under the first `limit` of some keys, with a cursor when more follow. */
  ghost function CutPage(s: State, keys: seq<string>, limit: nat): DiscoveryPage
    requires limit >= 1 && Elements(keys) <= s.instances.Keys
  {
    var shown := if |keys| > limit then keys[..limit] else keys;
    DiscoveryPage(
      seq(|shown|, i requires 0 <= i < |shown| => assert shown[i] in Elements(keys); s.instances[shown[i]].instance),
      if |keys| > limit then Some(keys[limit - 1]) else None,
      s.revision)
  }

  /** The first `limit` listed instances in key order. */
  ghost function ListPage(s: State, q: Query, after: string, limit: nat): DiscoveryPage
    requires limit >= 1
  {
    CutPage(s, SortedSet(Listed(s, q, after)), limit)
  }

  /** A first page without a cursor is the whole filtered listing: the start of a polling client. */
  lemma FirstPageIsListing(s: State, q: Query, limit: nat)
    requires RegistryLog.Linked(s) && limit >= 1 && ListPage(s, q, "", limit).next.None?
    ensures var items := ListPage(s, q, "", limit).items;
            && (forall i :: 0 <= i < |items| ==>
                  && MapKey(items[i].registration.key) in RegistryLog.View(s, q)
                  && RegistryLog.View(s, q)[MapKey(items[i].registration.key)] == RegistryLog.CoreOf(items[i]))
            && (forall key :: key in RegistryLog.View(s, q) ==>
                  exists i :: 0 <= i < |items| && MapKey(items[i].registration.key) == key)
  {
    var keys := SortedSet(Listed(s, q, ""));
    var items := ListPage(s, q, "", limit).items;
    assert |items| == |keys|;
    forall i | 0 <= i < |items|
      ensures keys[i] in s.instances && items[i] == s.instances[keys[i]].instance && MapKey(items[i].registration.key) == keys[i]
      ensures keys[i] in RegistryLog.View(s, q)
    {
      assert keys[i] in Elements(keys);
      assert RegistryLog.InstanceLinked(s, keys[i]);
    }
    forall key | key in RegistryLog.View(s, q)
      ensures exists i :: 0 <= i < |items| && MapKey(items[i].registration.key) == key
    {
      assert RegistryLog.InstanceLinked(s, key);
      assert key in Elements(keys);
      var i :| 0 <= i < |keys| && keys[i] == key;
      assert MapKey(items[i].registration.key) == key;
    }
  }

  lemma ExpireHead(s: State, ids: seq<string>, i: nat, now: int, max: nat)
    requires i < |ids|
    ensures ExpireEach(s, ids[i..], now, max)
         == if ids[i] !in s.leases then ExpireEach(s, ids[i + 1..], now, max)
            else ExpireEach(Registry.RemoveLease(s, s.leases[ids[i]], Expire, now, max), ids[i + 1..], now, max)
  {}

  lemma ExpireNone(s: State, ids: seq<string>, now: int, max: nat)
    ensures ExpireEach(s, ids[|ids|..], now, max) == s
  {}

  class DirectoryState {
    var revision: nat
    var instances: map<string, StoredInstance>
    var leases: map<string, Lease>
    var epochs: map<string, nat>
    var changes: seq<Change>

    ghost function Value(): State
      reads this
    {
      State(revision, instances, leases, epochs, changes)
    }

    constructor ()
      ensures Value() == EMPTY
    {
      revision, instances, leases, epochs, changes := 0, map[], map[], map[], [];
    }

    method Register(normalized: Option<Registration>, ttl: int, now: int, max: nat, id: string, token: Option<string>)
      returns (answer: Result<Lease, Error>)
      modifies this
      ensures Value() == Registry.Register(old(Value()), normalized, ttl, now, max, id, token).state
      ensures answer == Registry.Register(old(Value()), normalized, ttl, now, max, id, token).answer
    {
      hide Prune, PruneLog, Retained, MapKey;
      if ttl <= 0 || normalized.None? { return Err(InvalidRequest); }
      var registration := normalized.value;
      var _ := PruneExpired(now, max);
      var key := MapKey(registration.key);
      if key in instances { return Err(InstanceConflict); }
      if token.None? { return Err(TokenUnavailable); }
      var epoch := (if key in epochs then epochs[key] else 0) + 1;
      epochs := epochs[key := epoch];
      revision := revision + 1;
      var lease := Lease(id, token.value, registration.key, now + ttl, epoch);
      var instance := Instance(registration, now, now, lease.expiresAt, revision, epoch);
      instances := instances[key := StoredInstance(instance, lease.id)];
      leases := leases[lease.id := lease];
      AppendChange(Change(revision, Upsert, instance), max);
      return Ok(lease);
    }

    method Renew(credential: Credential, ttl: int, now: int, max: nat) returns (answer: Result<Lease, Error>)
      modifies this
      ensures Value() == Registry.Renew(old(Value()), credential, ttl, now, max).state
      ensures answer == Registry.Renew(old(Value()), credential, ttl, now, max).answer
    {
      if ttl <= 0 { return Err(InvalidRequest); }
      if credential.id !in leases { return Err(LeaseNotFound); }
      var lease := leases[credential.id];
      if lease.expiresAt <= now {
        RemoveLease(lease, Expire, now, max);
        return Err(LeaseExpired);
      }
      if !ValidToken(lease.token, credential.token) { return Err(LeaseFenced); }
      var key := MapKey(lease.key);
      if key !in instances || instances[key].leaseId != lease.id { return Err(Inconsistent); }
      lease := lease.(expiresAt := now + ttl);
      leases := leases[credential.id := lease];
      var stored := instances[key];
      instances := instances[key := stored.(instance := stored.instance.(expiresAt := lease.expiresAt, updatedAt := now))];
      return Ok(lease);
    }

    method Unregister(credential: Credential, now: int, max: nat) returns (answer: Result<(), Error>)
      modifies this
      ensures Value() == Registry.Unregister(old(Value()), credential, now, max).state
      ensures answer == Registry.Unregister(old(Value()), credential, now, max).answer
    {
      if credential.id !in leases { return Err(LeaseNotFound); }
      var lease := leases[credential.id];
      if lease.expiresAt <= now {
        RemoveLease(lease, Expire, now, max);
        return Err(LeaseExpired);
      }
      if !ValidToken(lease.token, credential.token) { return Err(LeaseFenced); }
      RemoveLease(lease, Delete, now, max);
      return Ok(());
    }

    /** `key` is the requested key after defaulting and validation, None when it was refused. */
    method Get(key: Option<InstanceKey>, now: int, max: nat) returns (answer: Result<Instance, Error>)
      modifies this
      ensures key.None? ==> Value() == old(Value()) && answer == Err(InvalidRequest)
      ensures key.Some? ==> Value() == Prune(old(Value()), now, max)
      ensures key.Some? ==>
        answer == if MapKey(key.value) in instances then Ok(instances[MapKey(key.value)].instance) else Err(InstanceNotFound)
    {
      if key.None? { return Err(InvalidRequest); }
      var _ := PruneExpired(now, max);
      if MapKey(key.value) !in instances { return Err(InstanceNotFound); }
      return Ok(instances[MapKey(key.value)].instance);
    }

    /** `after` is the decoded page cursor, None when it does not decode. */
    method List(query: Option<Query>, after: Option<string>, requested: int, now: int, max: nat)
      returns (answer: Result<DiscoveryPage, Error>)
      modifies this
      ensures query.None? || PageLimit(requested).None? || after.None? ==> Value() == old(Value()) && answer == Err(InvalidRequest)
      ensures query.Some? && PageLimit(requested).Some? && after.Some? ==>
        && Value() == Prune(old(Value()), now, max)
        && answer == Ok(ListPage(Value(), query.value, after.value, PageLimit(requested).value))
    {
      if query.None? || PageLimit(requested).None? || after.None? { return Err(InvalidRequest); }
      var limit := PageLimit(requested).value;
      var _ := PruneExpired(now, max);
      var sorted := ListedKeys(query.value, after.value);
      var page := PageFrom(sorted, limit);
      return Ok(page);
    }

    method PageFrom(keys: seq<string>, limit: nat) returns (page: DiscoveryPage)
      requires limit >= 1 && Elements(keys) <= instances.Keys
      ensures page == CutPage(Value(), keys, limit)
    {
      assert forall key :: key in keys ==> key in Elements(keys);
      var items := InstancesAt(if |keys| > limit then keys[..limit] else keys);
      page := DiscoveryPage(items, if |keys| > limit then Some(keys[limit - 1]) else None, revision);
      assert page.items == CutPage(Value(), keys, limit).items;
    }

    method InstancesAt(keys: seq<string>) returns (items: seq<Instance>)
      requires forall key :: key in keys ==> key in instances
      ensures |items| == |keys| && forall i :: 0 <= i < |keys| ==> items[i] == instances[keys[i]].instance
    {
      items := [];
      for i := 0 to |keys|
        invariant |items| == i && forall k :: 0 <= k < i ==> items[k] == instances[keys[k]].instance
      {
        items := items + [instances[keys[i]].instance];
      }
    }

    /** The first loop of `list`: collect the listed keys in map order, then sort them. */
    method ListedKeys(query: Query, after: string) returns (keys: seq<string>)
      ensures keys == SortedSet(Listed(Value(), query, after))
    {
      keys := [];
      var todo := instances.Keys;
      while todo != {}
        invariant todo <= instances.Keys
        invariant forall k :: k in keys <==> k in Listed(Value(), query, after) - todo
        invariant forall i, j :: 0 <= i < j < |keys| ==> keys[i] != keys[j]
        decreases |todo|
      {
        var key :| key in todo;
        assert key !in keys;
        if Less(after, key) && Matches(instances[key].instance.registration, query) { keys := keys + [key]; }
        todo := todo - {key};
      }
      assert Elements(keys) == Listed(Value(), query, after);
      keys := Text.Sort(keys);
      AscendingUnique(keys, SortedSet(Listed(Value(), query, after)));
    }

    method Poll(query: Option<Query>, after: nat, requested: int, now: int, max: nat) returns (answer: Result<Page, Error>)
      modifies this
      ensures Value() == Registry.Poll(old(Value()), query, after, requested, now, max).state
      ensures answer == Registry.Poll(old(Value()), query, after, requested, now, max).answer
    {
      if query.None? || PageLimit(requested).None? { return Err(InvalidRequest); }
      var limit := PageLimit(requested).value;
      var _ := PruneExpired(now, max);
      if after > revision { return Err(InvalidRequest); }
      if after > 0 && |changes| > 0 && after + 1 < changes[0].revision { return Err(CursorExpired); }
      var got: seq<Change>, next := [], after;
      var i := 0;
      while i < |changes|
        invariant 0 <= i <= |changes| && |got| < limit
        invariant Scan(changes, after, query.value, limit, [], after, revision)
               == Scan(changes[i..], after, query.value, limit, got, next, revision)
      {
        var change := changes[i];
        assert changes[i..][1..] == changes[i + 1..];
        if change.revision > after {
          next := change.revision;
          if Matches(change.instance.registration, query.value) {
            got := got + [change];
            if |got| == limit { return Ok(Page(got, next, revision)); }
          }
        }
        i := i + 1;
      }
      return Ok(Page(got, revision, revision));
    }

    method PruneExpired(now: int, max: nat) returns (changed: bool)
      modifies this
      ensures Value() == Prune(old(Value()), now, max)
      ensures changed <==> Expired(old(Value()), now) != {}
    {
      hide Registry.RemoveLease, ExpireEach, Expired;
      var sorted := ExpiredIds(now);
      assert sorted != [] ==> sorted[0] in Elements(sorted);
      var i := 0;
      while i < |sorted|
        invariant 0 <= i <= |sorted|
        invariant ExpireEach(old(Value()), sorted, now, max) == ExpireEach(Value(), sorted[i..], now, max)
      {
        ExpireHead(Value(), sorted, i, now, max);
        if sorted[i] in leases { RemoveLease(leases[sorted[i]], Expire, now, max); }
        i := i + 1;
      }
      ExpireNone(Value(), sorted, now, max);
      changed := |sorted| > 0;
    }

    /** The first loop of `pruneExpired`: collect the expired IDs in map order, then sort them. */
    method ExpiredIds(now: int) returns (ids: seq<string>)
      ensures ids == SortedSet(Expired(Value(), now))
    {
      ids := [];
      var todo := leases.Keys;
      while todo != {}
        invariant todo <= leases.Keys
        invariant forall id :: id in ids <==> id in Expired(Value(), now) - todo
        invariant forall i, j :: 0 <= i < j < |ids| ==> ids[i] != ids[j]
        decreases |todo|
      {
        var id :| id in todo;
        assert id !in ids;
        if leases[id].expiresAt <= now { ids := ids + [id]; }
        todo := todo - {id};
      }
      assert Elements(ids) == Expired(Value(), now);
      ids := Text.Sort(ids);
      AscendingUnique(ids, SortedSet(Expired(Value(), now)));
    }

    method RemoveLease(lease: Lease, kind: ChangeKind, now: int, max: nat)
      modifies this
      ensures Value() == Registry.RemoveLease(old(Value()), lease, kind, now, max)
    {
      var key := MapKey(lease.key);
      leases := leases - {lease.id};
      if key !in instances || instances[key].leaseId != lease.id { return; }
      var instance := instances[key].instance;
      instances := instances - {key};
      revision := revision + 1;
      AppendChange(Change(revision, kind, instance.(updatedAt := now, revision := revision)), max);
    }

    method AppendChange(change: Change, max: nat)
      modifies this`changes
      ensures changes == Retained(old(changes) + [change], max)
    {
      changes := changes + [change];
      if |changes| > max { changes := changes[|changes| - max..]; }
    }
  }
}
