/** The etcd plugin directory, `registry/etcd.go`: independent clients register, renew and
    unregister through separate reads, lease grants and compare-and-swap transactions on a
    multi-version store whose leases may expire at any moment. */
module Etcd {
  import opened Outcome

  type Key = string
  type LeaseId = nat

  const MAX_EPOCH: nat := 0xFFFF_FFFF_FFFF_FFFF

  // ---- the store ---------------------------------------------------------

  datatype Record = Record(epoch: nat, removed: bool)

  datatype Index = Index(key: Key, token: string, ttl: int)

  /** A stored value, the lease it is attached to and its modification revision. */
  datatype Kv<V> = Kv(value: V, lease: LeaseId, modified: nat)

  /** Epochs are attached to no lease. */
  datatype Counter = Counter(value: nat, modified: nat)

  datatype Store = Store(
    revision: nat, instances: map<Key, Kv<Record>>, leases: map<LeaseId, Kv<Index>>, epochs: map<Key, Counter>,
    live: set<LeaseId>, granted: set<LeaseId>)

  const EMPTY := Store(0, map[], map[], map[], {}, {})

  /** The comparison `nextEtcdEpoch` builds: absent, or unchanged since it was read. */
  predicate SameEpoch(store: Store, key: Key, seen: Option<nat>) {
    match seen
    case None => key !in store.epochs
    case Some(revision) => key in store.epochs && store.epochs[key].modified == revision
  }

  /** `nextEtcdEpoch`: the epoch to write, or nothing when the counter is exhausted. */
  function NextEpoch(store: Store, key: Key): Option<(nat, Option<nat>)> {
    if key !in store.epochs then Some((1, None))
    else if store.epochs[key].value == MAX_EPOCH then None
    else Some((store.epochs[key].value + 1, Some(store.epochs[key].modified)))
  }

  predicate Unchanged<K(==), V>(m: map<K, Kv<V>>, k: K, revision: nat) { k in m && m[k].modified == revision }

  function Granted(store: Store, lease: LeaseId): Store {
    store.(live := store.live + {lease}, granted := store.granted + {lease})
  }

  /** Revocation or expiry deletes every attached key together. */
  function Expired(store: Store, lease: LeaseId): Store {
    store.(
      revision := store.revision + 1, live := store.live - {lease},
      instances := map k | k in store.instances && store.instances[k].lease != lease :: store.instances[k],
      leases := map l | l in store.leases && store.leases[l].lease != lease :: store.leases[l])
  }

  function PutRegistration(store: Store, key: Key, epoch: nat, lease: LeaseId, token: string, ttl: int): Store {
    var r := store.revision + 1;
    store.(revision := r,
           epochs := store.epochs[key := Counter(epoch, r)],
           instances := store.instances[key := Kv(Record(epoch, false), lease, r)],
           leases := store.leases[lease := Kv(Index(key, token, ttl), lease, r)])
  }

  function PutInstance(store: Store, key: Key, record: Record, lease: LeaseId): Store {
    var r := store.revision + 1;
    store.(revision := r, instances := store.instances[key := Kv(record, lease, r)])
  }

  function PutReplacement(store: Store, index: Index, record: Record, replaced: LeaseId, lease: LeaseId): Store {
    var r := store.revision + 1;
    store.(revision := r,
           instances := store.instances[index.key := Kv(record, lease, r)],
           leases := store.leases[lease := Kv(index, lease, r)] - {replaced})
  }

  function Deleted(store: Store, key: Key, lease: LeaseId): Store {
    store.(revision := store.revision + 1, instances := store.instances - {key}, leases := store.leases - {lease})
  }

  // ---- clients -----------------------------------------------------------

  datatype Credential = Credential(id: LeaseId, token: string)

  datatype Operation = Renew(ttl: int) | Unregister

  /** A call between two accesses to the store. */
  datatype Client =
    | Counting(key: Key, ttl: int)
    | Granting(key: Key, ttl: int, epoch: nat, seen: Option<nat>)
    | Registering(key: Key, ttl: int, epoch: nat, seen: Option<nat>, lease: LeaseId, token: string)
    | Conflicting(key: Key, ttl: int, lease: LeaseId)
    | Checking(key: Key, ttl: int)
    | Looking(cred: Credential, op: Operation)
    | Loading(cred: Credential, op: Operation, index: Kv<Index>)
    | Deciding(cred: Credential, op: Operation, index: Kv<Index>, record: Kv<Record>)
    | Refreshing(cred: Credential, index: Kv<Index>, record: Kv<Record>)
    | Replacing(cred: Credential, index: Kv<Index>, record: Kv<Record>, ttl: int, lease: LeaseId)
    | Deleting(cred: Credential, key: Key, marked: nat)
    | Revoking(lease: LeaseId)

  /** A committed registration. */
  datatype Issue = Issue(key: Key, epoch: nat, lease: LeaseId)

  /** A call that has returned is no longer among the clients.  `used` and `issued` are history:
      the leases that ever had an index, and the registrations in commit order. */
  datatype State = State(store: Store, clients: map<nat, Client>, used: set<LeaseId>, issued: seq<Issue>)

  datatype Step =
    | Begin(c: nat, client: Client)
    | ReadEpoch(c: nat)
    | GrantFirst(c: nat, lease: LeaseId, token: string)
    | CommitRegister(c: nat)
    | RevokeOwn(c: nat, works: bool)
    | CheckExisting(c: nat)
    | ReadIndex(c: nat)
    | ReadInstance(c: nat)
    | KeepAlive(c: nat, works: bool)
    | GrantReplacement(c: nat, lease: LeaseId)
    | CommitRefresh(c: nat)
    | CommitReplace(c: nat)
    | CommitMark(c: nat)
    | CommitDelete(c: nat)
    | Expire(lease: LeaseId)
    | Stop(c: nat)             // cancellation, a failed request or the end of the process

  predicate Entry(client: Client) { client.Counting? || client.Looking? }

  predicate Renewable(client: Client) { client.Deciding? && client.op.Renew? && !client.record.value.removed }

  predicate Enabled(s: State, step: Step) {
    match step
    case Begin(c, client) => c !in s.clients && Entry(client)
    case ReadEpoch(c) => c in s.clients && s.clients[c].Counting?
    case GrantFirst(c, lease, _) => c in s.clients && s.clients[c].Granting? && lease !in s.store.granted
    case CommitRegister(c) => c in s.clients && s.clients[c].Registering?
    case RevokeOwn(c, _) => c in s.clients && (s.clients[c].Conflicting? || s.clients[c].Revoking?)
    case CheckExisting(c) => c in s.clients && s.clients[c].Checking?
    case ReadIndex(c) => c in s.clients && s.clients[c].Looking?
    case ReadInstance(c) => c in s.clients && s.clients[c].Loading?
    case KeepAlive(c, _) => c in s.clients && Renewable(s.clients[c]) && s.clients[c].op.ttl == s.clients[c].index.value.ttl
    case GrantReplacement(c, lease) =>
      && c in s.clients && Renewable(s.clients[c]) && s.clients[c].op.ttl != s.clients[c].index.value.ttl
      && lease !in s.store.granted
    case CommitRefresh(c) => c in s.clients && s.clients[c].Refreshing?
    case CommitReplace(c) => c in s.clients && s.clients[c].Replacing?
    case CommitMark(c) => c in s.clients && s.clients[c].Deciding? && s.clients[c].op.Unregister?
    case CommitDelete(c) => c in s.clients && s.clients[c].Deleting?
    case Expire(lease) => lease in s.store.live
    case Stop(c) => c in s.clients
  }

  function Goto(s: State, c: nat, client: Client): State { s.(clients := s.clients[c := client]) }

  /** The call returns. */
  function Return(s: State, c: nat): State { s.(clients := s.clients - {c}) }

  /** Both comparisons of a credential's transaction. */
  predicate Current(store: Store, cred: Credential, index: Kv<Index>, record: Kv<Record>) {
    Unchanged(store.instances, index.value.key, record.modified) && Unchanged(store.leases, cred.id, index.modified)
  }

  predicate Registrable(store: Store, key: Key, seen: Option<nat>) {
    key !in store.instances && SameEpoch(store, key, seen)
  }

  /** `loadLease`, first read. */
  function AfterIndex(s: State, c: nat, cred: Credential, op: Operation): State {
    if cred.id !in s.store.leases then Return(s, c)                                // not found
    else
      var index := s.store.leases[cred.id];
      if index.value.token != cred.token || index.lease != cred.id then Return(s, c)   // fenced
      else Goto(s, c, Loading(cred, op, index))
  }

  /** `loadLease`, second read, and the fence against a marked record. */
  function AfterInstance(s: State, c: nat, cred: Credential, op: Operation, index: Kv<Index>): State {
    var key := index.value.key;
    if key !in s.store.instances then Return(s, c)                                 // expired
    else
      var record := s.store.instances[key];
      if record.lease != cred.id || (op.Renew? && record.value.removed) then Return(s, c)   // fenced
      else Goto(s, c, Deciding(cred, op, index, record))
  }

  /** The credential under which the step's transaction succeeds. */
  function Succeeds(s: State, step: Step): Option<LeaseId>
    requires Enabled(s, step)
  {
    match step
    case CommitRefresh(c) => (var x := s.clients[c];
      if Current(s.store, x.cred, x.index, x.record) && x.cred.id in s.store.live then Some(x.cred.id) else None)
    case CommitReplace(c) => (var x := s.clients[c];
      if Current(s.store, x.cred, x.index, x.record) && x.lease in s.store.live then Some(x.cred.id) else None)
    case CommitMark(c) => (var x := s.clients[c];
      if Current(s.store, x.cred, x.index, x.record) && x.cred.id in s.store.live then Some(x.cred.id) else None)
    case CommitDelete(c) => (var x := s.clients[c];
      if Unchanged(s.store.instances, x.key, x.marked) then Some(x.cred.id) else None)
    case _ => None
  }

  function Next(s: State, step: Step): State
    requires Enabled(s, step)
  {
    match step
    case Begin(c, client) => Goto(s, c, client)
    case ReadEpoch(c) => (var x := s.clients[c];
      match NextEpoch(s.store, x.key)
      case None => Return(s, c)
      case Some(n) => Goto(s, c, Granting(x.key, x.ttl, n.0, n.1)))
    case GrantFirst(c, lease, token) => (var x := s.clients[c];
      Goto(s.(store := Granted(s.store, lease)), c, Registering(x.key, x.ttl, x.epoch, x.seen, lease, token)))
    case CommitRegister(c) => (var x := s.clients[c];
      if !Registrable(s.store, x.key, x.seen) then Goto(s, c, Conflicting(x.key, x.ttl, x.lease))
      else if x.lease !in s.store.live then Goto(s, c, Revoking(x.lease))
      else State(PutRegistration(s.store, x.key, x.epoch, x.lease, x.token, x.ttl), s.clients - {c},
                 s.used + {x.lease}, s.issued + [Issue(x.key, x.epoch, x.lease)]))
    case RevokeOwn(c, works) => (var x := s.clients[c];
      var t := if works && x.lease in s.store.live then s.(store := Expired(s.store, x.lease)) else s;
      if x.Conflicting? then Goto(t, c, Checking(x.key, x.ttl)) else Return(t, c))
    case CheckExisting(c) => (var x := s.clients[c];
      if x.key in s.store.instances then Return(s, c) else Goto(s, c, Counting(x.key, x.ttl)))
    case ReadIndex(c) => AfterIndex(s, c, s.clients[c].cred, s.clients[c].op)
    case ReadInstance(c) => AfterInstance(s, c, s.clients[c].cred, s.clients[c].op, s.clients[c].index)
    case KeepAlive(c, works) => (var x := s.clients[c];
      if works && x.cred.id in s.store.live then Goto(s, c, Refreshing(x.cred, x.index, x.record)) else Return(s, c))
    case GrantReplacement(c, lease) => (var x := s.clients[c];
      Goto(s.(store := Granted(s.store, lease)), c, Replacing(x.cred, x.index, x.record, x.op.ttl, lease)))
    case CommitRefresh(c) => (var x := s.clients[c];
      if Succeeds(s, step).None? then Return(s, c)
      else Return(s.(store := PutInstance(s.store, x.index.value.key, x.record.value, x.cred.id)), c))
    case CommitReplace(c) => (var x := s.clients[c];
      if Succeeds(s, step).None? then Goto(s, c, Revoking(x.lease))
      else Goto(s.(store := PutReplacement(s.store, x.index.value.(ttl := x.ttl), x.record.value, x.cred.id, x.lease),
                   used := s.used + {x.lease}), c, Revoking(x.cred.id)))
    case CommitMark(c) => (var x := s.clients[c];
      if Succeeds(s, step).None? then Return(s, c)
      else Goto(s.(store := PutInstance(s.store, x.index.value.key, x.record.value.(removed := true), x.cred.id)), c,
                Deleting(x.cred, x.index.value.key, s.store.revision + 1)))
    case CommitDelete(c) => (var x := s.clients[c];
      if Succeeds(s, step).None? then Return(s, c)
      else Goto(s.(store := Deleted(s.store, x.key, x.cred.id)), c, Revoking(x.cred.id)))
    case Expire(lease) => s.(store := Expired(s.store, lease))
    case Stop(c) => Return(s, c)
  }

  const INITIAL := State(EMPTY, map[], {}, [])
}
