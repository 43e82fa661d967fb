/** The plugin lease directory of registry/state.go as functions from state to state.
    Every operation returns the changes it appended to the log next to its new state;
    the class in DirectoryState.dfy performs the same operations in place. */
module Registry {
  import opened Outcome
  import opened Text

  datatype InstanceKey = InstanceKey(space: string, name: string, instanceId: string)

  datatype Registration = Registration(
    key: InstanceKey, uri: string, version: string, registers: seq<string>, labels: map<string, string>)

  datatype Instance = Instance(
    registration: Registration, registeredAt: int, updatedAt: int, expiresAt: int, revision: nat, epoch: nat)

  datatype StoredInstance = StoredInstance(instance: Instance, leaseId: string)

  datatype Lease = Lease(id: string, token: string, key: InstanceKey, expiresAt: int, epoch: nat)

  datatype Credential = Credential(id: string, token: string)

  datatype Query = Query(space: string, name: string, version: string, resource: string, labels: map<string, string>)

  datatype ChangeKind = Upsert | Delete | Expire

  datatype Change = Change(revision: nat, kind: ChangeKind, instance: Instance)

  datatype Page = Page(changes: seq<Change>, next: nat, current: nat)

  datatype Error =
    | InvalidRequest | InstanceConflict | InstanceNotFound
    | LeaseNotFound | LeaseExpired | LeaseFenced | CursorExpired
    | TokenUnavailable | Inconsistent

  datatype State = State(
    revision: nat,
    instances: map<string, StoredInstance>,
    leases: map<string, Lease>,
    epochs: map<string, nat>,
    changes: seq<Change>)

  /** A state, the changes written on the way to it, and the answer to the caller. */
  datatype Effect<+T> = Effect(state: State, emitted: seq<Change>, answer: Result<T, Error>)

  const EMPTY := State(0, map[], map[], map[], [])
  const ANY_QUERY := Query("", "", "", "", map[])
  const DEFAULT_PAGE_SIZE := 100
  const MAX_PAGE_SIZE := 1000

  function MapKey(key: InstanceKey): string {
    key.space + [0 as char] + key.name + [0 as char] + key.instanceId
  }

  predicate Matches(registration: Registration, query: Query) {
    && (query.space == "" || registration.key.space == query.space)
    && (query.name == "" || registration.key.name == query.name)
    && (query.version == "" || registration.version == query.version)
    && (query.resource == "" || query.resource in registration.registers)
    && forall tag :: tag in query.labels ==>
         (if tag in registration.labels then registration.labels[tag] else "") == query.labels[tag]
  }

  predicate ValidToken(expected: string, actual: string) { expected != "" && expected == actual }

  function EpochOf(s: State, key: string): nat { if key in s.epochs then s.epochs[key] else 0 }

  // ---- operations --------------------------------------------------------

  function Retained(changes: seq<Change>, max: nat): seq<Change> {
    if |changes| > max then changes[|changes| - max..] else changes
  }

  function Publish(s: State, change: Change, max: nat): State {
    s.(revision := change.revision, changes := Retained(s.changes + [change], max))
  }

  function RemovalOf(s: State, lease: Lease, kind: ChangeKind, now: int): seq<Change> {
    var key := MapKey(lease.key);
    if key !in s.instances || s.instances[key].leaseId != lease.id then []
    else [Change(s.revision + 1, kind, s.instances[key].instance.(updatedAt := now, revision := s.revision + 1))]
  }

  function RemoveLease(s: State, lease: Lease, kind: ChangeKind, now: int, max: nat): State {
    var removal := RemovalOf(s, lease, kind, now);
    var unleased := s.(leases := s.leases - {lease.id});
    if removal == [] then unleased
    else Publish(unleased.(instances := s.instances - {MapKey(lease.key)}), removal[0], max)
  }

  ghost function Expired(s: State, now: int): set<string> {
    set id | id in s.leases && s.leases[id].expiresAt <= now
  }

  /** The body of the second loop of `pruneExpired`, over a list of lease IDs. */
  function ExpireEach(s: State, ids: seq<string>, now: int, max: nat): State
    decreases |ids|
  {
    if ids == [] then s
    else if ids[0] !in s.leases then ExpireEach(s, ids[1..], now, max)
    else ExpireEach(RemoveLease(s, s.leases[ids[0]], Expire, now, max), ids[1..], now, max)
  }

  function ExpireEachLog(s: State, ids: seq<string>, now: int, max: nat): seq<Change>
    decreases |ids|
  {
    if ids == [] then []
    else if ids[0] !in s.leases then ExpireEachLog(s, ids[1..], now, max)
    else RemovalOf(s, s.leases[ids[0]], Expire, now)
         + ExpireEachLog(RemoveLease(s, s.leases[ids[0]], Expire, now, max), ids[1..], now, max)
  }

  ghost function Prune(s: State, now: int, max: nat): State { ExpireEach(s, SortedSet(Expired(s, now)), now, max) }

  ghost function PruneLog(s: State, now: int, max: nat): seq<Change> {
    ExpireEachLog(s, SortedSet(Expired(s, now)), now, max)
  }

  /** Bookkeeping of an accepted registration: a new epoch, a new revision, a new lease. */
  function Admit(s: State, registration: Registration, expiresAt: int, now: int, max: nat, id: string, token: string): State {
    var key := MapKey(registration.key);
    var epoch := EpochOf(s, key) + 1;
    var instance := Instance(registration, now, now, expiresAt, s.revision + 1, epoch);
    Publish(
      s.(epochs := s.epochs[key := epoch],
         instances := s.instances[key := StoredInstance(instance, id)],
         leases := s.leases[id := Lease(id, token, registration.key, expiresAt, epoch)]),
      Change(s.revision + 1, Upsert, instance), max)
  }

  /** `register`.  `normalized` is what normalising the request gave, None when it was refused;
      `id` and `token` are the freshly drawn lease identity, `token` None when drawing failed. */
  ghost function Register(s: State, normalized: Option<Registration>, ttl: int, now: int, max: nat,
                          id: string, token: Option<string>): Effect<Lease>
  {
    if ttl <= 0 || normalized.None? then Effect(s, [], Err(InvalidRequest)) else
      var registration, pruned, log := normalized.value, Prune(s, now, max), PruneLog(s, now, max);
      var key := MapKey(registration.key);
      if key in pruned.instances then Effect(pruned, log, Err(InstanceConflict))
      else if token.None? then Effect(pruned, log, Err(TokenUnavailable))
      else
        var admitted := Admit(pruned, registration, now + ttl, now, max, id, token.value);
        var change := Change(pruned.revision + 1, Upsert, admitted.instances[key].instance);
        Effect(admitted, log + [change], Ok(admitted.leases[id]))
  }

  function Extend(s: State, id: string, expiresAt: int, now: int): State
    requires id in s.leases && MapKey(s.leases[id].key) in s.instances
  {
    var lease := s.leases[id].(expiresAt := expiresAt);
    var key := MapKey(lease.key);
    var stored := s.instances[key];
    s.(leases := s.leases[id := lease],
       instances := s.instances[key := stored.(instance := stored.instance.(expiresAt := expiresAt, updatedAt := now))])
  }

  function Renew(s: State, credential: Credential, ttl: int, now: int, max: nat): Effect<Lease> {
    if ttl <= 0 then Effect(s, [], Err(InvalidRequest))
    else if credential.id !in s.leases then Effect(s, [], Err(LeaseNotFound))
    else
      var lease := s.leases[credential.id];
      var key := MapKey(lease.key);
      if lease.expiresAt <= now then
        Effect(RemoveLease(s, lease, Expire, now, max), RemovalOf(s, lease, Expire, now), Err(LeaseExpired))
      else if !ValidToken(lease.token, credential.token) then Effect(s, [], Err(LeaseFenced))
      else if key !in s.instances || s.instances[key].leaseId != lease.id then Effect(s, [], Err(Inconsistent))
      else Effect(Extend(s, credential.id, now + ttl, now), [], Ok(lease.(expiresAt := now + ttl)))
  }

  function Unregister(s: State, credential: Credential, now: int, max: nat): Effect<()> {
    if credential.id !in s.leases then Effect(s, [], Err(LeaseNotFound))
    else
      var lease := s.leases[credential.id];
      if lease.expiresAt <= now then
        Effect(RemoveLease(s, lease, Expire, now, max), RemovalOf(s, lease, Expire, now), Err(LeaseExpired))
      else if !ValidToken(lease.token, credential.token) then Effect(s, [], Err(LeaseFenced))
      else Effect(RemoveLease(s, lease, Delete, now, max), RemovalOf(s, lease, Delete, now), Ok(()))
  }

  /** `poll` after validation and pruning: walk the log from the cursor up to the page limit. */
  function Scan(log: seq<Change>, after: nat, query: Query, limit: nat, got: seq<Change>, next: nat, revision: nat): Page {
    if log == [] then Page(got, revision, revision)
    else if log[0].revision <= after then Scan(log[1..], after, query, limit, got, next, revision)
    else if !Matches(log[0].instance.registration, query) then
      Scan(log[1..], after, query, limit, got, log[0].revision, revision)
    else if |got| + 1 == limit then Page(got + [log[0]], log[0].revision, revision)
    else Scan(log[1..], after, query, limit, got + [log[0]], log[0].revision, revision)
  }

  function PollPruned(s: State, after: nat, query: Query, limit: nat): Result<Page, Error> {
    if after > s.revision then Err(InvalidRequest)
    else if after > 0 && |s.changes| > 0 && after + 1 < s.changes[0].revision then Err(CursorExpired)
    else Ok(Scan(s.changes, after, query, limit, [], after, s.revision))
  }

  function PageLimit(requested: int): Option<nat> {
    var limit := if requested == 0 then DEFAULT_PAGE_SIZE else requested;
    if 1 <= limit <= MAX_PAGE_SIZE then Some(limit) else None
  }

  ghost function Poll(s: State, query: Option<Query>, after: nat, limit: int, now: int, max: nat): Effect<Page> {
    if query.None? || PageLimit(limit).None? then Effect(s, [], Err(InvalidRequest)) else
      var pruned := Prune(s, now, max);
      Effect(pruned, PruneLog(s, now, max), PollPruned(pruned, after, query.value, PageLimit(limit).value))
  }
}
