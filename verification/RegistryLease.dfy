/** What the directory's callers get: how long a lease lives, whose calls are refused and why, and
    what a discovery query asks for (registry/state.go, registry/directory.go). */
module RegistryLease {
  import opened Outcome
  import opened Text
  import opened Registry
  import opened RegistryLog

  // ---- how long a lease lives -------------------------------------------------

  /** The lease and its instance are there for every reader before `end` and for none from then on. */
  ghost predicate LivesUntil(s: State, id: string, key: string, end: int, max: nat) {
    forall now ::
      && (id in Prune(s, now, max).leases <==> now < end)
      && (key in Prune(s, now, max).instances <==> now < end)
  }

  lemma StoredLife(s: State, id: string, max: nat)
    requires Inv(s) && max >= 1 && id in s.leases
    ensures LivesUntil(s, id, MapKey(s.leases[id].key), s.leases[id].expiresAt, max)
  {
    hide Prune, MapKey, Contiguous;
    var key := MapKey(s.leases[id].key);
    assert LeaseLinked(s, id) && InstanceLinked(s, key);
    forall now ensures id in Prune(s, now, max).leases <==> now < s.leases[id].expiresAt
      ensures key in Prune(s, now, max).instances <==> now < s.leases[id].expiresAt
    {
      PruneExact(s, now, max);
    }
  }

  /** A renewal needs the stored token and a lease that has not expired. */
  lemma RenewalNeeds(s: State, c: Credential, ttl: int, now: int, max: nat)
    requires Inv(s)
    ensures Renew(s, c, ttl, now, max).answer.Ok? <==>
            ttl > 0 && c.id in s.leases && now < s.leases[c.id].expiresAt && c.token != "" && s.leases[c.id].token == c.token
  {
    hide MapKey, Contiguous;
    if c.id in s.leases { assert LeaseLinked(s, c.id); }
  }

  /** After a renewal the registration lives for `ttl` from now; nothing else about it changes. */
  lemma RenewalExtends(s: State, c: Credential, ttl: int, now: int, max: nat)
    requires Inv(s) && max >= 1 && Renew(s, c, ttl, now, max).answer.Ok?
    ensures var e := Renew(s, c, ttl, now, max);
            && c.id in s.leases && c.id in e.state.leases && e.answer.value == e.state.leases[c.id]
            && e.answer.value == s.leases[c.id].(expiresAt := now + ttl)
            && LivesUntil(e.state, c.id, MapKey(s.leases[c.id].key), now + ttl, max)
            && View(e.state, ANY_QUERY) == View(s, ANY_QUERY) && e.state.changes == s.changes
  {
    hide Inv, Prune, MapKey, LivesUntil, Listing, Extend;
    RenewalNeeds(s, c, ttl, now, max);
    assert Linked(s) by { InvIsLinked(s); }
    assert LeaseLinked(s, c.id);
    hide Linked, LeaseLinked;
    var e := Renew(s, c, ttl, now, max);
    assert e.state == Extend(s, c.id, now + ttl, now);
    hide Renew;
    ExtendKeeps(s, c.id, now + ttl, now);
    ExtendShows(s, c.id, now + ttl, now);
    StoredLife(e.state, c.id, max);
  }

  lemma ExtendShows(s: State, id: string, expiresAt: int, now: int)
    requires id in s.leases && MapKey(s.leases[id].key) in s.instances
    ensures var t := Extend(s, id, expiresAt, now);
            id in t.leases && t.leases[id] == s.leases[id].(expiresAt := expiresAt)
            && View(t, ANY_QUERY) == View(s, ANY_QUERY) && t.changes == s.changes
  {
    hide MapKey, Listing;
    var key := MapKey(s.leases[id].key);
    ListingTouched(s.instances, key, Extend(s, id, expiresAt, now).instances[key], ANY_QUERY);
  }

  /** Which error a renewal or an unregistration meets. */
  lemma Refusals(s: State, c: Credential, ttl: int, now: int, max: nat)
    requires Inv(s) && max >= 1 && ttl > 0
    ensures c.id !in s.leases ==>
              Renew(s, c, ttl, now, max).answer == Err(LeaseNotFound) && Unregister(s, c, now, max).answer == Err(LeaseNotFound)
    ensures c.id in s.leases && s.leases[c.id].expiresAt <= now ==>
              && Renew(s, c, ttl, now, max).answer == Err(LeaseExpired) && Unregister(s, c, now, max).answer == Err(LeaseExpired)
              && c.id !in Renew(s, c, ttl, now, max).state.leases && c.id !in Unregister(s, c, now, max).state.leases
    ensures c.id in s.leases && now < s.leases[c.id].expiresAt && c.token != s.leases[c.id].token ==>
              && Renew(s, c, ttl, now, max) == Effect(s, [], Err(LeaseFenced))
              && Unregister(s, c, now, max) == Effect(s, [], Err(LeaseFenced))
  {
    hide MapKey, Contiguous;
    if c.id in s.leases { RemoveKeeps(s, c.id, Expire, now, max); }
  }

  /** An unregistration needs the same credential; then lease and instance are gone at once, and a
      deletion of that instance is published. */
  lemma UnregistrationRemoves(s: State, c: Credential, now: int, max: nat)
    requires Inv(s) && max >= 1
    ensures var e := Unregister(s, c, now, max);
            && (e.answer.Ok? <==> c.id in s.leases && now < s.leases[c.id].expiresAt && c.token != "" && s.leases[c.id].token == c.token)
            && (e.answer.Ok? ==>
                  var key := MapKey(s.leases[c.id].key);
                  && e.state.leases == s.leases - {c.id} && e.state.instances == s.instances - {key} && e.state.epochs == s.epochs
                  && key in s.instances && |e.emitted| == 1 && e.emitted[0].kind == Delete && e.emitted[0].revision == s.revision + 1
                  && e.emitted[0].instance.registration == s.instances[key].instance.registration)
  {
    hide MapKey, Contiguous;
    if c.id in s.leases {
      assert LeaseLinked(s, c.id) && InstanceLinked(s, MapKey(s.leases[c.id].key));
      RemoveKeeps(s, c.id, Delete, now, max);
    }
  }

  /** A registration is refused exactly for a bad request, a key that is still alive at `now`, or a
      failed draw; otherwise the given registration lives for `ttl` from now. */
  lemma RegistrationStores(s: State, r: Option<Registration>, ttl: int, now: int, max: nat, id: string, token: Option<string>)
    requires Inv(s) && max >= 1 && id !in s.leases && (token.Some? ==> token.value != "")
    ensures var e := Register(s, r, ttl, now, max, id, token);
            var taken := r.Some? && MapKey(r.value.key) in s.instances && now < s.instances[MapKey(r.value.key)].instance.expiresAt;
            && (e.answer == Err(InvalidRequest) <==> ttl <= 0 || r.None?)
            && (e.answer == Err(InstanceConflict) <==> ttl > 0 && taken)
            && (e.answer == Err(TokenUnavailable) <==> ttl > 0 && r.Some? && !taken && token.None?)
            && (e.answer.Ok? <==> ttl > 0 && r.Some? && !taken && token.Some?)
  {
    hide MapKey, Contiguous, Prune, PruneLog;
    if r.Some? {
      PruneExact(s, now, max);
      StillAlive(s, MapKey(r.value.key), now, max);
    }
  }

  lemma StillAlive(s: State, key: string, now: int, max: nat)
    requires Inv(s) && max >= 1
    ensures key in Prune(s, now, max).instances <==> key in s.instances && now < s.instances[key].instance.expiresAt
  {
    hide Prune, MapKey, Contiguous;
    PruneExact(s, now, max);
    if key in s.instances { assert InstanceLinked(s, key); }
  }

  /** The stored registration, and how long it lives. */
  lemma RegistrationLives(s: State, r: Registration, ttl: int, now: int, max: nat, id: string, token: string)
    requires Inv(s) && max >= 1 && id !in s.leases && token != ""
    requires Register(s, Some(r), ttl, now, max, id, Some(token)).answer.Ok?
    ensures var e := Register(s, Some(r), ttl, now, max, id, Some(token));
            var key := MapKey(r.key);
            && e.answer.value.id == id && e.answer.value.token == token && e.answer.value.key == r.key
            && e.answer.value.expiresAt == now + ttl && e.answer.value.epoch == EpochOf(s, key) + 1
            && id in e.state.leases && e.state.leases[id] == e.answer.value
            && key in e.state.instances && e.state.instances[key].instance.registration == r
            && e.state.instances[key].instance.registeredAt == now
            && LivesUntil(e.state, id, key, now + ttl, max)
  {
    hide MapKey, Prune, PruneLog, LivesUntil, Contiguous;
    PruneExact(s, now, max);
    var pruned := Prune(s, now, max);
    assert id !in pruned.leases;
    AdmitKeeps(pruned, r, now + ttl, now, max, id, token);
    StoredLife(Register(s, Some(r), ttl, now, max, id, Some(token)).state, id, max);
  }

  // ---- what a query asks for --------------------------------------------------

  /** Every field that is set narrows the query, each by itself. */
  lemma MatchesByField(r: Registration, q: Query)
    ensures Matches(r, q) <==>
            && Matches(r, ANY_QUERY.(space := q.space)) && Matches(r, ANY_QUERY.(name := q.name))
            && Matches(r, ANY_QUERY.(version := q.version)) && Matches(r, ANY_QUERY.(resource := q.resource))
            && Matches(r, ANY_QUERY.(labels := q.labels))
  {}

  /** A field that is set excludes every registration with another value; an own value never does. */
  lemma FieldExcludes(r: Registration, x: string, tag: string)
    ensures x != "" ==> (Matches(r, ANY_QUERY.(space := x)) <==> r.key.space == x)
    ensures x != "" ==> (Matches(r, ANY_QUERY.(name := x)) <==> r.key.name == x)
    ensures x != "" ==> (Matches(r, ANY_QUERY.(version := x)) <==> r.version == x)
    ensures x != "" ==> (Matches(r, ANY_QUERY.(resource := x)) <==> x in r.registers)
    ensures tag in r.labels ==> (Matches(r, ANY_QUERY.(labels := map[tag := x])) <==> r.labels[tag] == x)
    ensures tag !in r.labels ==> (Matches(r, ANY_QUERY.(labels := map[tag := x])) <==> x == "")
    ensures Matches(r, ANY_QUERY)
  {
    var q := map[tag := x];
    assert tag in q && q[tag] == x;
  }

  /** Labels are asked for one by one. */
  lemma LabelsByTag(r: Registration, labels: map<string, string>)
    ensures Matches(r, ANY_QUERY.(labels := labels)) <==>
            forall tag :: tag in labels ==> Matches(r, ANY_QUERY.(labels := map[tag := labels[tag]]))
  {
    forall tag | tag in labels ensures Matches(r, ANY_QUERY.(labels := map[tag := labels[tag]])) <==>
        (if tag in r.labels then r.labels[tag] else "") == labels[tag] {
      var q := map[tag := labels[tag]];
      assert tag in q;
    }
  }

  lemma PageLimitMeans(requested: int)
    ensures PageLimit(requested).Some? <==> 0 <= requested <= 1000
    ensures requested == 0 ==> PageLimit(requested) == Some(100)
    ensures 1 <= requested <= 1000 ==> PageLimit(requested) == Some(requested)
  {}

  // ---- what pruning publishes ----------------------------------------------------

  /** Pruning publishes one expiry for each expired lease and nothing else. */
  lemma {:induction false} ExpiriesArePublished(s: State, ids: seq<string>, now: int, max: nat)
    requires Inv(s) && max >= 1 && Ascending(ids) && Elements(ids) <= s.leases.Keys
    ensures var log := ExpireEachLog(s, ids, now, max);
            |log| == |ids| && forall i :: 0 <= i < |log| ==> log[i].kind == Expire && log[i].revision == s.revision + 1 + i
    decreases |ids|
  {
    hide Inv, RemoveLease, Ascending, MapKey, Retained;
    if ids != [] {
      RestOf(ids);
      RemoveKeeps(s, ids[0], Expire, now, max);
      var removal := RemovalOf(s, s.leases[ids[0]], Expire, now);
      assert |removal| == 1;
      ExpiriesArePublished(RemoveLease(s, s.leases[ids[0]], Expire, now, max), ids[1..], now, max);
    }
  }

  lemma PruningPublishes(s: State, now: int, max: nat)
    requires Inv(s) && max >= 1
    ensures var log := PruneLog(s, now, max);
            |log| == |Expired(s, now)| && forall i :: 0 <= i < |log| ==> log[i].kind == Expire
  {
    hide Inv;
    var ids := SortedSet(Expired(s, now));
    ExpiriesArePublished(s, ids, now, max);
    AscendingSize(ids);
  }

  /** A call with an expired lease publishes its expiry. */
  lemma LateCallsExpire(s: State, c: Credential, ttl: int, now: int, max: nat)
    requires Inv(s) && max >= 1 && ttl > 0 && c.id in s.leases && s.leases[c.id].expiresAt <= now
    ensures |Renew(s, c, ttl, now, max).emitted| == 1 && Renew(s, c, ttl, now, max).emitted[0].kind == Expire
    ensures Unregister(s, c, now, max).emitted == Renew(s, c, ttl, now, max).emitted
    ensures Unregister(s, c, now, max).state == Renew(s, c, ttl, now, max).state
  {
    hide MapKey, Contiguous;
    RemoveKeeps(s, c.id, Expire, now, max);
  }

  /** A cursor ahead of the directory is refused. */
  lemma AheadIsRefused(s: State, after: nat, q: Query, limit: nat)
    requires after > s.revision
    ensures PollPruned(s, after, q, limit) == Err(InvalidRequest)
  {}

  /** The log keeps the newest changes, as many as the bound allows. */
  lemma RetainedMeans(changes: seq<Change>, max: nat)
    ensures |Retained(changes, max)| == (if |changes| < max then |changes| else max)
    ensures exists dropped :: changes == dropped + Retained(changes, max)
  {
    var dropped := changes[..|changes| - |Retained(changes, max)|];
    assert changes == dropped + Retained(changes, max);
  }
}
