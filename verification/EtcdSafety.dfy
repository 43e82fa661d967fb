/** Fencing of the etcd directory: in every interleaving of any number of clients and expiries,
    instances and lease indexes stay in bijection, epochs grow, and a credential that was
    replaced, removed or expired never succeeds again. */
module EtcdSafety {
  import opened Outcome
  import opened Etcd

  // ---- invariant ---------------------------------------------------------

  /** The instance of a key and the index of its lease hang on the same live lease. */
  ghost predicate InstanceOk(store: Store, key: Key)
    requires key in store.instances
  {
    var kv := store.instances[key];
    && 0 < kv.modified <= store.revision && kv.lease in store.live
    && kv.lease in store.leases && store.leases[kv.lease].value.key == key
    && key in store.epochs && store.epochs[key].value == kv.value.epoch
  }

  ghost predicate LeaseOk(store: Store, lease: LeaseId)
    requires lease in store.leases
  {
    var kv := store.leases[lease];
    && 0 < kv.modified <= store.revision && kv.lease == lease
    && kv.value.key in store.instances && store.instances[kv.value.key].lease == lease
  }

  ghost predicate StoreOk(store: Store) {
    && (forall key :: key in store.instances ==> InstanceOk(store, key))
    && (forall lease :: lease in store.leases ==> LeaseOk(store, lease))
    && (forall key :: key in store.epochs ==> store.epochs[key].modified <= store.revision && 1 <= store.epochs[key].value <= MAX_EPOCH)
    && store.live <= store.granted
  }

  /** A read value is current as long as its modification revision is. */
  ghost predicate Seen<K, V>(m: map<K, Kv<V>>, revision: nat, k: K, kv: Kv<V>) {
    0 < kv.modified <= revision && (k in m && m[k].modified == kv.modified ==> m[k] == kv)
  }

  /** The epoch read is still the stored one if the comparison holds. */
  ghost predicate SeenEpoch(store: Store, key: Key, seen: Option<nat>, epoch: nat) {
    && 1 <= epoch <= MAX_EPOCH && (seen.Some? ==> seen.value <= store.revision)
    && (SameEpoch(store, key, seen) ==> epoch == (if key in store.epochs then store.epochs[key].value else 0) + 1)
  }

  ghost predicate SeenBoth(store: Store, cred: Credential, index: Kv<Index>, record: Kv<Record>) {
    && record.lease == cred.id && index.lease == cred.id
    && Seen(store.leases, store.revision, cred.id, index)
    && Seen(store.instances, store.revision, index.value.key, record)
  }

  ghost predicate ClientOk(store: Store, client: Client) {
    match client
    case Granting(key, _, epoch, seen) => SeenEpoch(store, key, seen, epoch)
    case Registering(key, _, epoch, seen, _, _) => SeenEpoch(store, key, seen, epoch)
    case Loading(cred, _, index) => index.lease == cred.id && Seen(store.leases, store.revision, cred.id, index)
    case Deciding(cred, _, index, record) => SeenBoth(store, cred, index, record)
    case Refreshing(cred, index, record) => SeenBoth(store, cred, index, record) && !record.value.removed
    case Replacing(cred, index, record, _, _) => SeenBoth(store, cred, index, record) && !record.value.removed
    case Deleting(cred, key, marked) =>
      marked <= store.revision && (Unchanged(store.instances, key, marked) ==>
        store.instances[key].lease == cred.id && store.instances[key].value.removed)
    case _ => true
  }

  /** A lease granted to a client and not yet attached to anything. */
  function Held(client: Client): Option<LeaseId> {
    match client
    case Registering(_, _, _, _, lease, _) => Some(lease)
    case Replacing(_, _, _, _, lease) => Some(lease)
    case _ => None
  }

  ghost predicate HeldOk(s: State, c: nat)
    requires c in s.clients
  {
    Held(s.clients[c]).Some? ==>
      Held(s.clients[c]).value in s.store.granted - s.used
      && forall d :: d in s.clients && d != c ==> Held(s.clients[d]) != Held(s.clients[c])
  }

  ghost predicate IssuedOk(s: State) {
    && (forall i :: 0 <= i < |s.issued| ==>
          s.issued[i].key in s.store.epochs && s.issued[i].epoch <= s.store.epochs[s.issued[i].key].value && s.issued[i].lease in s.used)
    && (forall i, j :: 0 <= i < j < |s.issued| && s.issued[i].key == s.issued[j].key ==> s.issued[i].epoch < s.issued[j].epoch)
  }

  ghost predicate ClientsOk(s: State) { forall c :: c in s.clients ==> ClientOk(s.store, s.clients[c]) && HeldOk(s, c) }

  ghost predicate Inv(s: State) {
    && StoreOk(s.store) && ClientsOk(s) && IssuedOk(s)
    && s.store.leases.Keys <= s.used <= s.store.granted
  }

  // ---- how the store evolves ---------------------------------------------

  ghost predicate Newer<K, V>(a: map<K, Kv<V>>, b: map<K, Kv<V>>, revision: nat) {
    forall k :: k in b ==> (k in a && b[k] == a[k]) || b[k].modified > revision
  }

  /** Later values carry later revisions; epochs and grants are never forgotten. */
  ghost predicate Evolves(a: Store, b: Store) {
    && a.revision <= b.revision
    && Newer(a.instances, b.instances, a.revision) && Newer(a.leases, b.leases, a.revision)
    && (forall k :: k in a.epochs ==> k in b.epochs && (b.epochs[k] == a.epochs[k] || b.epochs[k].modified > a.revision))
    && (forall k :: k in a.epochs ==> a.epochs[k].value <= b.epochs[k].value)
    && (forall k :: k in b.epochs && k !in a.epochs ==> b.epochs[k].modified > a.revision)
    && a.granted <= b.granted
  }

  lemma SeenEpochStays(a: Store, b: Store, key: Key, seen: Option<nat>, epoch: nat)
    requires Evolves(a, b) && SeenEpoch(a, key, seen, epoch)
    ensures SeenEpoch(b, key, seen, epoch)
  {}

  /** What a client has read stays trustworthy whatever others write. */
  lemma ClientStays(a: Store, b: Store, client: Client)
    requires Evolves(a, b) && ClientOk(a, client)
    ensures ClientOk(b, client)
  {
    hide SeenEpoch;
    match client
    case Granting(key, _, epoch, seen) => SeenEpochStays(a, b, key, seen, epoch);
    case Registering(key, _, epoch, seen, _, _) => SeenEpochStays(a, b, key, seen, epoch);
    case _ =>
  }

  // ---- each write keeps the store consistent -----------------------------

  lemma GrantedOk(store: Store, lease: LeaseId)
    requires StoreOk(store)
    ensures StoreOk(Granted(store, lease)) && Evolves(store, Granted(store, lease))
  {
    var t := Granted(store, lease);
    forall key | key in t.instances ensures InstanceOk(t, key) { assert InstanceOk(store, key); }
    forall l | l in t.leases ensures LeaseOk(t, l) { assert LeaseOk(store, l); }
  }

  /** An expiry takes an instance and its index together. */
  lemma ExpiredOk(store: Store, lease: LeaseId)
    requires StoreOk(store)
    ensures StoreOk(Expired(store, lease)) && Evolves(store, Expired(store, lease)) && lease !in Expired(store, lease).leases
    ensures Expired(store, lease).leases.Keys <= store.leases.Keys
  {
    var t := Expired(store, lease);
    forall key | key in t.instances ensures InstanceOk(t, key) {
      assert InstanceOk(store, key);
      assert LeaseOk(store, store.instances[key].lease);
    }
    forall l | l in t.leases ensures LeaseOk(t, l) {
      assert LeaseOk(store, l);
    }
    assert lease in store.leases ==> LeaseOk(store, lease);
  }

  ghost function StoredEpoch(store: Store, key: Key): nat { if key in store.epochs then store.epochs[key].value else 0 }

  lemma PutRegistrationOk(store: Store, key: Key, epoch: nat, lease: LeaseId, token: string, ttl: int)
    requires StoreOk(store) && key !in store.instances && lease in store.live && lease !in store.leases
    requires epoch == StoredEpoch(store, key) + 1 <= MAX_EPOCH
    ensures var t := PutRegistration(store, key, epoch, lease, token, ttl); StoreOk(t) && Evolves(store, t)
  {
    var t := PutRegistration(store, key, epoch, lease, token, ttl);
    forall k | k in t.instances ensures InstanceOk(t, k) {
      if k != key { assert InstanceOk(store, k); }
    }
    forall l | l in t.leases ensures LeaseOk(t, l) {
      if l != lease { assert LeaseOk(store, l); }
    }
  }

  lemma PutInstanceOk(store: Store, key: Key, record: Record, lease: LeaseId)
    requires StoreOk(store) && key in store.instances && store.instances[key].lease == lease
    requires record.epoch == store.instances[key].value.epoch
    ensures var t := PutInstance(store, key, record, lease); StoreOk(t) && Evolves(store, t)
  {
    var t := PutInstance(store, key, record, lease);
    assert InstanceOk(store, key);
    forall k | k in t.instances ensures InstanceOk(t, k) { assert InstanceOk(store, k); }
    forall l | l in t.leases ensures LeaseOk(t, l) { assert LeaseOk(store, l); }
  }

  lemma PutReplacementOk(store: Store, index: Index, record: Record, replaced: LeaseId, lease: LeaseId)
    requires StoreOk(store) && index.key in store.instances && store.instances[index.key].lease == replaced
    requires record.epoch == store.instances[index.key].value.epoch
    requires lease in store.live && lease !in store.leases
    ensures var t := PutReplacement(store, index, record, replaced, lease); StoreOk(t) && Evolves(store, t)
  {
    var t := PutReplacement(store, index, record, replaced, lease);
    assert InstanceOk(store, index.key);
    forall k | k in t.instances ensures InstanceOk(t, k) {
      assert InstanceOk(store, k);
      if k != index.key { assert LeaseOk(store, store.instances[k].lease); }
    }
    forall l | l in t.leases ensures LeaseOk(t, l) {
      if l != lease { assert LeaseOk(store, l); }
    }
  }

  lemma DeletedOk(store: Store, key: Key, lease: LeaseId)
    requires StoreOk(store) && key in store.instances && store.instances[key].lease == lease
    ensures StoreOk(Deleted(store, key, lease)) && Evolves(store, Deleted(store, key, lease))
  {
    var t := Deleted(store, key, lease);
    forall k | k in t.instances ensures InstanceOk(t, k) { assert InstanceOk(store, k) && InstanceOk(store, key); }
    forall l | l in t.leases ensures LeaseOk(t, l) { assert LeaseOk(store, l) && InstanceOk(store, key); }
  }

  // ---- each step ---------------------------------------------------------

  function HeldBy(s: State, c: nat): Option<LeaseId> { if c in s.clients then Held(s.clients[c]) else None }

  /** The step of client `c` takes a lease in hand, keeps it, uses it or drops it. */
  ghost predicate HandOk(s: State, t: State, c: nat) {
    && (HeldBy(t, c).Some? ==>
          HeldBy(t, c).value in t.store.granted - t.used
          && (HeldBy(t, c) == HeldBy(s, c) || HeldBy(t, c).value !in s.store.granted))
    && (t.used == s.used || (HeldBy(s, c).Some? && t.used == s.used + {HeldBy(s, c).value}))
  }

  lemma OtherHands(s: State, t: State, c: nat, d: nat)
    requires ClientsOk(s) && s.clients - {c} == t.clients - {c} && HandOk(s, t, c)
    requires s.used <= s.store.granted <= t.store.granted
    requires d in t.clients
    ensures HeldOk(t, d)
  {
    hide ClientOk, Held;
    forall e | e != c ensures (e in s.clients <==> e in t.clients) && (e in s.clients ==> s.clients[e] == t.clients[e]) {
      assert e in s.clients <==> e in s.clients - {c};
      assert e in t.clients <==> e in t.clients - {c};
      if e in s.clients { assert (s.clients - {c})[e] == (t.clients - {c})[e]; }
    }
    forall e | e in s.clients ensures HeldOk(s, e) {}
  }

  /** It is enough to look at the client that moved. */
  lemma ClientStep(s: State, t: State, c: nat)
    requires Inv(s) && StoreOk(t.store) && Evolves(s.store, t.store) && IssuedOk(t)
    requires s.clients - {c} == t.clients - {c} && HandOk(s, t, c)
    requires c in t.clients ==> ClientOk(t.store, t.clients[c])
    requires t.store.leases.Keys <= t.used <= t.store.granted
    ensures Inv(t)
  {
    hide StoreOk, Evolves, ClientOk, IssuedOk, HandOk;
    assert s.store.granted <= t.store.granted by { GrantedGrows(s.store, t.store); }
    forall d | d in t.clients ensures ClientOk(t.store, t.clients[d]) && HeldOk(t, d) {
      OtherHands(s, t, c, d);
      if d != c {
        assert d in t.clients - {c};
        assert (s.clients - {c})[d] == (t.clients - {c})[d];
        ClientStays(s.store, t.store, t.clients[d]);
      }
    }
  }

  lemma GrantedGrows(a: Store, b: Store)
    requires Evolves(a, b)
    ensures a.granted <= b.granted
  {}

  lemma SameStore(store: Store)
    ensures Evolves(store, store)
  {}

  lemma IssuedStays(s: State, t: State)
    requires IssuedOk(s) && Evolves(s.store, t.store) && t.issued == s.issued && s.used <= t.used
    ensures IssuedOk(t)
  {}

  /** Reads, checks and returns: the store does not change. */
  lemma ReadKeeps(s: State, t: State, c: nat)
    requires Inv(s) && t == s.(clients := t.clients) && s.clients - {c} == t.clients - {c}
    requires c in t.clients ==> ClientOk(s.store, t.clients[c]) && (HeldBy(t, c) == None || HeldBy(t, c) == HeldBy(s, c))
    ensures Inv(t)
  {
    hide StoreOk, ClientOk, IssuedOk, Evolves;
    SameStore(s.store);
    IssuedStays(s, t);
    if HeldBy(t, c).Some? { assert HeldOk(s, c); }
    ClientStep(s, t, c);
  }

  lemma ReadEpochKeeps(s: State, c: nat)
    requires Inv(s) && Enabled(s, ReadEpoch(c))
    ensures Inv(Next(s, ReadEpoch(c)))
  {
    hide IssuedOk, Evolves, ClientsOk;
    ReadKeeps(s, Next(s, ReadEpoch(c)), c);
  }

  lemma LoadLeaseKeeps(s: State, step: Step)
    requires Inv(s) && Enabled(s, step) && (step.ReadIndex? || step.ReadInstance?)
    ensures Inv(Next(s, step))
  {
    hide IssuedOk, Evolves;
    var x := s.clients[step.c];
    if step.ReadIndex? { assert x.cred.id in s.store.leases ==> LeaseOk(s.store, x.cred.id); }
    if step.ReadInstance? { assert x.index.value.key in s.store.instances ==> InstanceOk(s.store, x.index.value.key); }
    ReadKeeps(s, Next(s, step), step.c);
  }

  lemma IdleStepKeeps(s: State, step: Step)
    requires Inv(s) && Enabled(s, step) && (step.Begin? || step.CheckExisting? || step.KeepAlive? || step.Stop?)
    ensures Inv(Next(s, step))
  {
    hide IssuedOk, Evolves, StoreOk, Seen;
    ReadKeeps(s, Next(s, step), step.c);
  }

  lemma GrantKeeps(s: State, step: Step)
    requires Inv(s) && Enabled(s, step) && (step.GrantFirst? || step.GrantReplacement?)
    ensures Inv(Next(s, step))
  {
    hide IssuedOk, Evolves, StoreOk, SeenEpoch, Seen;
    var t := Next(s, step);
    GrantedOk(s.store, step.lease);
    IssuedStays(s, t);
    ClientStays(s.store, t.store, s.clients[step.c]);
    ClientStep(s, t, step.c);
  }

  lemma ExpireKeeps(s: State, t: State, lease: LeaseId, c: nat)
    requires Inv(s) && t == s.(store := Expired(s.store, lease), clients := t.clients) && s.clients - {c} == t.clients - {c}
    requires c in t.clients ==> HeldBy(t, c) == HeldBy(s, c) && (t.clients[c].Checking? || (c in s.clients && t.clients[c] == s.clients[c]))
    ensures Inv(t)
  {
    hide IssuedOk, Evolves, StoreOk, SeenEpoch, Seen;
    ExpiredOk(s.store, lease);
    IssuedStays(s, t);
    if c in t.clients {
      if c in s.clients { ClientStays(s.store, t.store, s.clients[c]); }
      if HeldBy(t, c).Some? { assert HeldOk(s, c); }
    }
    ClientStep(s, t, c);
  }

  lemma RevokeKeeps(s: State, c: nat, works: bool)
    requires Inv(s) && Enabled(s, RevokeOwn(c, works))
    ensures Inv(Next(s, RevokeOwn(c, works)))
  {
    hide IssuedOk, Evolves, StoreOk, ClientsOk;
    var t := Next(s, RevokeOwn(c, works));
    var x := s.clients[c];
    if works && x.lease in s.store.live { ExpireKeeps(s, t, x.lease, c); } else { ReadKeeps(s, t, c); }
  }

  /** A transaction that fails leaves the store alone. */
  lemma FailedKeeps(s: State, step: Step)
    requires Inv(s) && Enabled(s, step) && Succeeds(s, step).None?
    requires step.CommitRefresh? || step.CommitReplace? || step.CommitMark? || step.CommitDelete?
    ensures Inv(Next(s, step))
  {
    hide IssuedOk, Evolves, StoreOk, ClientsOk, Current;
    ReadKeeps(s, Next(s, step), step.c);
  }

  lemma RegisterKeeps(s: State, c: nat)
    requires Inv(s) && Enabled(s, CommitRegister(c))
    ensures Inv(Next(s, CommitRegister(c)))
  {
    hide IssuedOk, Evolves, StoreOk;
    var x, t := s.clients[c], Next(s, CommitRegister(c));
    assert ClientOk(s.store, x) && HeldOk(s, c);
    if Registrable(s.store, x.key, x.seen) && x.lease in s.store.live {
      PutRegistrationOk(s.store, x.key, x.epoch, x.lease, x.token, x.ttl);
      IssueKeeps(s, c);
      ClientStep(s, t, c);
    } else {
      ReadKeeps(s, t, c);
    }
  }

  /** A new registration of a key gets an epoch above all earlier ones. */
  lemma IssueKeeps(s: State, c: nat)
    requires Enabled(s, CommitRegister(c)) && IssuedOk(s) && ClientOk(s.store, s.clients[c])
    requires Registrable(s.store, s.clients[c].key, s.clients[c].seen) && s.clients[c].lease in s.store.live
    ensures IssuedOk(Next(s, CommitRegister(c)))
  {
    var x, t := s.clients[c], Next(s, CommitRegister(c));
    assert x.epoch == StoredEpoch(s.store, x.key) + 1;
    forall i | 0 <= i < |s.issued| ensures t.issued[i] == s.issued[i] {}
  }

  /** The compared values are the stored ones, on the credential's lease. */
  lemma CurrentIsSeen(s: State, cred: Credential, index: Kv<Index>, record: Kv<Record>)
    requires StoreOk(s.store) && SeenBoth(s.store, cred, index, record) && Current(s.store, cred, index, record)
    ensures s.store.leases[cred.id] == index && s.store.instances[index.value.key] == record && record.lease == cred.id
  {}

  lemma RefreshKeeps(s: State, step: Step)
    requires Inv(s) && Enabled(s, step) && Succeeds(s, step).Some? && (step.CommitRefresh? || step.CommitMark?)
    ensures Inv(Next(s, step))
  {
    hide IssuedOk, Evolves, StoreOk;
    var c := step.c;
    var x, t := s.clients[c], Next(s, step);
    assert ClientOk(s.store, x);
    CurrentIsSeen(s, x.cred, x.index, x.record);
    PutInstanceOk(s.store, x.index.value.key, if step.CommitMark? then x.record.value.(removed := true) else x.record.value, x.cred.id);
    IssuedStays(s, t);
    ClientStep(s, t, c);
  }

  lemma ReplaceKeeps(s: State, c: nat)
    requires Inv(s) && Enabled(s, CommitReplace(c)) && Succeeds(s, CommitReplace(c)).Some?
    ensures Inv(Next(s, CommitReplace(c)))
  {
    hide IssuedOk, Evolves, StoreOk;
    var x, t := s.clients[c], Next(s, CommitReplace(c));
    assert ClientOk(s.store, x) && HeldOk(s, c);
    CurrentIsSeen(s, x.cred, x.index, x.record);
    PutReplacementOk(s.store, x.index.value.(ttl := x.ttl), x.record.value, x.cred.id, x.lease);
    IssuedStays(s, t);
    hide ClientOk;
    ClientStep(s, t, c);
  }

  lemma DeleteKeeps(s: State, c: nat)
    requires Inv(s) && Enabled(s, CommitDelete(c)) && Succeeds(s, CommitDelete(c)).Some?
    ensures Inv(Next(s, CommitDelete(c)))
  {
    hide IssuedOk, Evolves, StoreOk;
    var x, t := s.clients[c], Next(s, CommitDelete(c));
    assert ClientOk(s.store, x);
    DeletedOk(s.store, x.key, x.cred.id);
    IssuedStays(s, t);
    ClientStep(s, t, c);
  }

  lemma StepKeeps(s: State, step: Step)
    requires Inv(s) && Enabled(s, step)
    ensures Inv(Next(s, step))
  {
    hide Inv, Succeeds, Next;
    match step
    case CommitRegister(c) => RegisterKeeps(s, c);
    case GrantFirst(_, _, _) => GrantKeeps(s, step);
    case GrantReplacement(_, _) => GrantKeeps(s, step);
    case RevokeOwn(c, works) => RevokeKeeps(s, c, works);
    case CommitRefresh(_) => if Succeeds(s, step).Some? { RefreshKeeps(s, step); } else { FailedKeeps(s, step); }
    case CommitMark(_) => if Succeeds(s, step).Some? { RefreshKeeps(s, step); } else { FailedKeeps(s, step); }
    case CommitReplace(c) => if Succeeds(s, step).Some? { ReplaceKeeps(s, c); } else { FailedKeeps(s, step); }
    case CommitDelete(c) => if Succeeds(s, step).Some? { DeleteKeeps(s, c); } else { FailedKeeps(s, step); }
    case Expire(lease) => ExpireStepKeeps(s, lease);
    case ReadEpoch(c) => ReadEpochKeeps(s, c);
    case ReadIndex(_) => LoadLeaseKeeps(s, step);
    case ReadInstance(_) => LoadLeaseKeeps(s, step);
    case _ => IdleStepKeeps(s, step);
  }

  lemma ExpireStepKeeps(s: State, lease: LeaseId)
    requires Inv(s) && Enabled(s, Expire(lease))
    ensures Inv(Next(s, Expire(lease)))
  {
    hide Inv;
    ExpireKeeps(s, Next(s, Expire(lease)), lease, 0);
  }

  // ---- credentials -------------------------------------------------------

  /** The lease once had an index and has none now. */
  ghost predicate Retired(s: State, lease: LeaseId) { lease in s.used && lease !in s.store.leases }

  /** Only a credential whose index is in place, pointing at an instance on that very lease, commits. */
  lemma OnlyCurrentSucceeds(s: State, step: Step)
    requires Inv(s) && Enabled(s, step) && Succeeds(s, step).Some?
    ensures var lease := Succeeds(s, step).value;
            lease in s.store.leases && s.store.leases[lease].value.key in s.store.instances
            && s.store.instances[s.store.leases[lease].value.key].lease == lease
    ensures step.CommitReplace? || step.CommitDelete? ==> Retired(Next(s, step), Succeeds(s, step).value)
  {
    hide IssuedOk, Evolves;
    var c := step.c;
    var x := s.clients[c];
    assert ClientOk(s.store, x) && HeldOk(s, c);
    var lease := Succeeds(s, step).value;
    if step.CommitDelete? { assert InstanceOk(s.store, x.key); }
    assert LeaseOk(s.store, lease);
  }

  /** A retired credential stays retired. */
  lemma RetiredStays(s: State, step: Step, lease: LeaseId)
    requires Inv(s) && Enabled(s, step) && Retired(s, lease)
    ensures Retired(Next(s, step), lease) && Succeeds(s, step) != Some(lease)
  {
    hide IssuedOk, StoreOk, ClientOk, Current, Registrable;
    if Succeeds(s, step).Some? { OnlyCurrentSucceeds(s, step); }
    if step.CommitRegister? || step.CommitReplace? { assert HeldOk(s, step.c); }
  }

  // ---- runs --------------------------------------------------------------

  ghost predicate Runs(s: State, steps: seq<Step>, t: State)
    decreases |steps|
  {
    if steps == [] then t == s else Enabled(s, steps[0]) && Runs(Next(s, steps[0]), steps[1..], t)
  }

  lemma {:induction false} RunKeeps(s: State, steps: seq<Step>, t: State)
    requires Inv(s) && Runs(s, steps, t)
    ensures Inv(t)
    decreases |steps|
  {
    hide Inv, Enabled, Next;
    if steps != [] {
      StepKeeps(s, steps[0]);
      RunKeeps(Next(s, steps[0]), steps[1..], t);
    }
  }

  /** Whatever the clients do next, a retired credential never succeeds again. */
  lemma {:induction false} RetiredForever(s: State, steps: seq<Step>, t: State, lease: LeaseId, next: Step)
    requires Inv(s) && Runs(s, steps, t) && Retired(s, lease) && Enabled(t, next)
    ensures Retired(t, lease) && Succeeds(t, next) != Some(lease)
    decreases |steps|
  {
    hide Inv, Enabled, Next, Succeeds, Retired;
    if steps == [] {
      RetiredStays(s, next, lease);
    } else {
      StepKeeps(s, steps[0]);
      RetiredStays(s, steps[0], lease);
      RetiredForever(Next(s, steps[0]), steps[1..], t, lease, next);
    }
  }

  lemma InitialInv()
    ensures Inv(INITIAL)
  {}

  /** The safety of the directory over every run. */
  lemma EtcdFencing(steps: seq<Step>, t: State)
    requires Runs(INITIAL, steps, t)
    ensures Inv(t)
    ensures forall key :: key in t.store.instances ==>
              var lease := t.store.instances[key].lease;
              lease in t.store.live && lease in t.store.leases && t.store.leases[lease].lease == lease
              && t.store.leases[lease].value.key == key
              && key in t.store.epochs && t.store.epochs[key].value == t.store.instances[key].value.epoch
    ensures forall lease :: lease in t.store.leases ==>
              t.store.leases[lease].value.key in t.store.instances
              && t.store.instances[t.store.leases[lease].value.key].lease == lease
    ensures forall i, j :: 0 <= i < j < |t.issued| && t.issued[i].key == t.issued[j].key ==> t.issued[i].epoch < t.issued[j].epoch
  {
    hide Runs;
    InitialInv();
    RunKeeps(INITIAL, steps, t);
    Consequences(t);
  }

  lemma Consequences(t: State)
    requires Inv(t)
    ensures forall key :: key in t.store.instances ==>
              var lease := t.store.instances[key].lease;
              lease in t.store.live && lease in t.store.leases && t.store.leases[lease].lease == lease
              && t.store.leases[lease].value.key == key
              && key in t.store.epochs && t.store.epochs[key].value == t.store.instances[key].value.epoch
    ensures forall lease :: lease in t.store.leases ==>
              t.store.leases[lease].value.key in t.store.instances
              && t.store.instances[t.store.leases[lease].value.key].lease == lease
  {
    forall key | key in t.store.instances ensures InstanceOk(t.store, key) && LeaseOk(t.store, t.store.instances[key].lease) {
      assert InstanceOk(t.store, key);
    }
    forall lease | lease in t.store.leases ensures LeaseOk(t.store, lease) {}
  }

  // ---- an unregistration that has begun is final -------------------------

  /** The lease is retired, or its instance carries the delete mark. */
  ghost predicate Doomed(s: State, lease: LeaseId) {
    Retired(s, lease) ||
    (lease in s.store.leases && s.store.leases[lease].value.key in s.store.instances
     && s.store.instances[s.store.leases[lease].value.key].value.removed)
  }

  predicate Renews(step: Step) { step.CommitRefresh? || step.CommitReplace? }

  /** A renewal commits only on a record without the mark. */
  lemma RenewalNeedsUnmarked(s: State, step: Step)
    requires Inv(s) && Enabled(s, step) && Succeeds(s, step).Some? && Renews(step)
    ensures !Doomed(s, Succeeds(s, step).value)
  {
    hide IssuedOk;
    var x := s.clients[step.c];
    assert ClientOk(s.store, x);
    CurrentIsSeen(s, x.cred, x.index, x.record);
  }

  /** A write under another credential leaves a marked instance alone. */
  lemma DoomedStays(s: State, step: Step, lease: LeaseId)
    requires Inv(s) && Enabled(s, step) && Doomed(s, lease)
    ensures Doomed(Next(s, step), lease)
    ensures Renews(step) ==> Succeeds(s, step) != Some(lease)
  {
    hide IssuedOk;
    if Retired(s, lease) {
      RetiredStays(s, step, lease);
    } else {
      assert LeaseOk(s.store, lease) && InstanceOk(s.store, s.store.leases[lease].value.key);
      if Succeeds(s, step).Some? {
        OnlyCurrentSucceeds(s, step);
        if Renews(step) { RenewalNeedsUnmarked(s, step); }
      }
      MarkStays(s, step, lease, s.store.leases[lease].value.key);
    }
  }

  /** The instance the credential's transaction writes is the one on its own lease. */
  lemma WritesOwnKey(s: State, step: Step)
    requires Inv(s) && Enabled(s, step) && Succeeds(s, step).Some?
    ensures var x := s.clients[step.c];
            var key := if x.Deleting? then x.key else x.index.value.key;
            key in s.store.instances && s.store.instances[key].lease == Succeeds(s, step).value
  {
    hide IssuedOk, StoreOk;
    assert ClientOk(s.store, s.clients[step.c]);
  }

  lemma MarkStays(s: State, step: Step, lease: LeaseId, key: Key)
    requires Inv(s) && Enabled(s, step) && lease in s.store.leases
    requires s.store.leases[lease].value.key == key && s.store.leases[lease].lease == lease
    requires key in s.store.instances && s.store.instances[key].value.removed && s.store.instances[key].lease == lease
    requires Renews(step) ==> Succeeds(s, step) != Some(lease)
    ensures Doomed(Next(s, step), lease)
  {
    if Succeeds(s, step).Some? {
      WritesOwnKey(s, step);
      hide IssuedOk, StoreOk, ClientOk, Current;
      if step.CommitReplace? { assert HeldOk(s, step.c); }
    } else {
      hide IssuedOk, StoreOk, ClientOk, Succeeds;
      UnmarkedSteps(s, step, lease, key);
    }
  }

  lemma UnmarkedSteps(s: State, step: Step, lease: LeaseId, key: Key)
    requires Inv(s) && Enabled(s, step) && lease in s.store.leases && Succeeds(s, step).None?
    requires s.store.leases[lease].value.key == key && s.store.leases[lease].lease == lease
    requires key in s.store.instances && s.store.instances[key].value.removed && s.store.instances[key].lease == lease
    ensures Doomed(Next(s, step), lease)
  {
    hide IssuedOk, StoreOk, ClientOk, Current;
    if step.CommitRegister? { assert HeldOk(s, step.c); }
  }

  /** Once marked for removal, a registration is never renewed again, even if the client that
      marked it dies before deleting it. */
  lemma {:induction false} RemovalIsFinal(s: State, steps: seq<Step>, t: State, lease: LeaseId, next: Step)
    requires Inv(s) && Runs(s, steps, t) && Doomed(s, lease) && Enabled(t, next)
    ensures Doomed(t, lease) && (Renews(next) ==> Succeeds(t, next) != Some(lease))
    decreases |steps|
  {
    hide Inv, Enabled, Next, Succeeds, Doomed;
    if steps == [] {
      DoomedStays(s, next, lease);
    } else {
      StepKeeps(s, steps[0]);
      DoomedStays(s, steps[0], lease);
      RemovalIsFinal(Next(s, steps[0]), steps[1..], t, lease, next);
    }
  }

  // ---- a new registration fences all earlier ones ------------------------

  /** The lease is, or once was, the credential of a registration of the key. */
  ghost predicate CredentialFor(s: State, lease: LeaseId, key: Key) {
    lease in s.used && (lease in s.store.leases ==> s.store.leases[lease].value.key == key)
  }

  /** A committed registration or replacement hands out a credential for its key. */
  lemma CommitHandsOut(s: State, step: Step)
    requires Inv(s) && Enabled(s, step)
    ensures step.CommitRegister? && Next(s, step).issued != s.issued ==>
              CredentialFor(Next(s, step), s.clients[step.c].lease, s.clients[step.c].key)
    ensures step.CommitReplace? && Succeeds(s, step).Some? ==>
              CredentialFor(Next(s, step), s.clients[step.c].lease, s.clients[step.c].index.value.key)
  {
    hide IssuedOk, StoreOk, ClientOk, Registrable, Current;
  }

  lemma CredentialStays(s: State, step: Step, lease: LeaseId, key: Key)
    requires Inv(s) && Enabled(s, step) && CredentialFor(s, lease, key)
    ensures CredentialFor(Next(s, step), lease, key)
  {
    hide IssuedOk, StoreOk, ClientOk, Registrable, Current;
    if step.CommitRegister? || step.CommitReplace? { assert HeldOk(s, step.c); }
  }

  lemma {:induction false} CredentialStaysFor(s: State, steps: seq<Step>, t: State, lease: LeaseId, key: Key)
    requires Inv(s) && Runs(s, steps, t) && CredentialFor(s, lease, key)
    ensures Inv(t) && CredentialFor(t, lease, key)
    decreases |steps|
  {
    hide Inv, Enabled, Next, CredentialFor;
    if steps != [] {
      StepKeeps(s, steps[0]);
      CredentialStays(s, steps[0], lease, key);
      CredentialStaysFor(Next(s, steps[0]), steps[1..], t, lease, key);
    }
  }

  /** When a registration of a key commits, every credential ever handed out for that key is
      already retired, and so never succeeds from then on. */
  lemma RegistrationFencesEarlier(s: State, steps: seq<Step>, t: State, c: nat, lease: LeaseId, key: Key)
    requires Inv(s) && CredentialFor(s, lease, key) && Runs(s, steps, t)
    requires Enabled(t, CommitRegister(c)) && t.clients[c].key == key && Next(t, CommitRegister(c)).issued != t.issued
    ensures Retired(t, lease) && Retired(Next(t, CommitRegister(c)), lease)
  {
    CredentialStaysFor(s, steps, t, lease, key);
    hide Runs, ClientOk, IssuedOk;
    assert lease in t.store.leases ==> LeaseOk(t.store, lease);
    RetiredStays(t, CommitRegister(c), lease);
  }
}
