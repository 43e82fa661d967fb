/** Credentials of the etcd directory: who does not hold the token of a registration can neither
    renew, replace nor remove it; and a client that nobody disturbs gets what it asks for. */
module EtcdTokens {
  import opened Outcome
  import opened Etcd
  import opened EtcdSafety

  // ---- only the registered token commits ---------------------------------------

  /** The client has passed the token check of `loadLease`. */
  predicate Admitted(client: Client) {
    client.Loading? || client.Deciding? || client.Refreshing? || client.Replacing? || client.Deleting?
  }

  /** While its index stands, an admitted client presents the token of the index. */
  ghost predicate TokenOk(s: State, client: Client) {
    Admitted(client) ==>
      client.cred.id in s.used
      && (client.cred.id in s.store.leases ==> s.store.leases[client.cred.id].value.token == client.cred.token)
  }

  ghost predicate Tokens(s: State) { forall c :: c in s.clients ==> TokenOk(s, s.clients[c]) }

  /** The index of a lease is written once. */
  lemma IndexStays(s: State, step: Step, lease: LeaseId)
    requires Inv(s) && Enabled(s, step) && lease in s.used
    ensures lease in Next(s, step).used
    ensures lease in Next(s, step).store.leases ==>
              lease in s.store.leases && Next(s, step).store.leases[lease].value == s.store.leases[lease].value
  {
    hide IssuedOk, StoreOk, ClientOk, Registrable, Current;
    if step.CommitRegister? || step.CommitReplace? { assert HeldOk(s, step.c); }
  }

  lemma TokenStays(s: State, step: Step, client: Client)
    requires Inv(s) && Enabled(s, step) && TokenOk(s, client)
    ensures TokenOk(Next(s, step), client)
  {
    hide Inv, Next;
    if Admitted(client) { IndexStays(s, step, client.cred.id); }
  }

  /** A client that moves keeps its credential; it is admitted by the index it reads. */
  lemma OwnToken(s: State, step: Step, c: nat)
    requires Inv(s) && Tokens(s) && Enabled(s, step) && !step.Expire? && step.c == c && c in Next(s, step).clients
    ensures TokenOk(Next(s, step), Next(s, step).clients[c])
  {
    var t := Next(s, step);
    if c in s.clients && Admitted(s.clients[c]) {
      assert TokenOk(s, s.clients[c]);
      TokenStays(s, step, s.clients[c]);
      hide Inv, TokenOk, Succeeds, Tokens;
      assert Admitted(t.clients[c]) ==> t.clients[c].cred == s.clients[c].cred;
      SameToken(t, s.clients[c], t.clients[c]);
    } else {
      hide IssuedOk, StoreOk, ClientsOk;
    }
  }

  lemma SameToken(t: State, a: Client, b: Client)
    requires TokenOk(t, a) && Admitted(a) && (Admitted(b) ==> b.cred == a.cred)
    ensures TokenOk(t, b)
  {}

  lemma OthersUnmoved(s: State, step: Step, d: nat)
    requires Enabled(s, step) && d in Next(s, step).clients && (step.Expire? || d != step.c)
    ensures d in s.clients && Next(s, step).clients[d] == s.clients[d]
  {
    hide Succeeds, Registrable;
  }

  lemma StepTokens(s: State, step: Step)
    requires Inv(s) && Tokens(s) && Enabled(s, step)
    ensures Tokens(Next(s, step))
  {
    hide Inv, Next, TokenOk, Enabled;
    forall d | d in Next(s, step).clients ensures TokenOk(Next(s, step), Next(s, step).clients[d]) {
      if !step.Expire? && d == step.c {
        OwnToken(s, step, d);
      } else {
        OthersUnmoved(s, step, d);
        TokenStays(s, step, s.clients[d]);
      }
    }
  }

  lemma {:induction false} RunTokens(s: State, steps: seq<Step>, t: State)
    requires Inv(s) && Tokens(s) && Runs(s, steps, t)
    ensures Inv(t) && Tokens(t)
    decreases |steps|
  {
    hide Inv, Tokens, Enabled, Next;
    if steps != [] {
      StepKeeps(s, steps[0]);
      StepTokens(s, steps[0]);
      RunTokens(Next(s, steps[0]), steps[1..], t);
    }
  }

  /** Over every run: a transaction that renews, replaces, marks or deletes commits only for a
      client that presents the token stored with the lease. */
  lemma OnlyTokenSucceeds(steps: seq<Step>, s: State, step: Step)
    requires Runs(INITIAL, steps, s) && Enabled(s, step) && Succeeds(s, step).Some?
    ensures var lease := Succeeds(s, step).value;
            lease in s.store.leases && s.clients[step.c].cred.id == lease
            && s.clients[step.c].cred.token == s.store.leases[lease].value.token
  {
    hide Runs;
    InitialInv();
    assert Tokens(INITIAL);
    RunTokens(INITIAL, steps, s);
    OnlyCurrentSucceeds(s, step);
    hide Inv;
    assert TokenOk(s, s.clients[step.c]);
  }

  // ---- the token of a registration ----------------------------------------------

  /** The key is registered at this epoch under this token. */
  ghost predicate RegisteredWith(s: State, key: Key, epoch: nat, token: string) {
    && key in s.store.instances && s.store.instances[key].value.epoch == epoch
    && s.store.instances[key].lease in s.store.leases
    && s.store.leases[s.store.instances[key].lease].value.token == token
  }

  /** What a committed registration hands out. */
  lemma RegisterStores(s: State, c: nat)
    requires Inv(s) && Enabled(s, CommitRegister(c)) && Next(s, CommitRegister(c)).issued != s.issued
    ensures var x, t := s.clients[c], Next(s, CommitRegister(c));
            && RegisteredWith(t, x.key, x.epoch, x.token) && t.store.instances[x.key].lease == x.lease
            && !t.store.instances[x.key].value.removed
            && t.store.leases[x.lease].value == Index(x.key, x.token, x.ttl)
            && t.store.epochs[x.key].value == x.epoch == StoredEpoch(s.store, x.key) + 1
  {
    hide IssuedOk, StoreOk;
    assert ClientOk(s.store, s.clients[c]);
  }

  /** A replacement moves the index, token and all, to the new lease and gives it the new time. */
  lemma ReplacementKeepsToken(s: State, c: nat)
    requires Inv(s) && Enabled(s, CommitReplace(c)) && Succeeds(s, CommitReplace(c)).Some?
    ensures var x, t := s.clients[c], Next(s, CommitReplace(c));
            && x.cred.id in s.store.leases && x.cred.id !in t.store.leases && x.lease in t.store.leases
            && t.store.leases[x.lease].value == s.store.leases[x.cred.id].value.(ttl := x.ttl)
            && var key := s.store.leases[x.cred.id].value.key;
            && key in s.store.instances && key in t.store.instances && t.store.instances[key].lease == x.lease
            && t.store.instances[key].value == s.store.instances[key].value
  {
    hide IssuedOk;
    assert ClientOk(s.store, s.clients[c]) && HeldOk(s, c);
    CurrentIsSeen(s, s.clients[c].cred, s.clients[c].index, s.clients[c].record);
  }

  /** While a registration lives its token does not change. */
  lemma RegistrationKeepsToken(s: State, step: Step, key: Key, epoch: nat, token: string)
    requires Inv(s) && Enabled(s, step) && RegisteredWith(s, key, epoch, token)
    requires key in Next(s, step).store.instances && Next(s, step).store.instances[key].value.epoch == epoch
    ensures RegisteredWith(Next(s, step), key, epoch, token)
  {
    var t := Next(s, step);
    StepKeeps(s, step);
    assert InstanceOk(t.store, key) && InstanceOk(s.store, key);
    var lease := t.store.instances[key].lease;
    if lease in s.used {
      IndexStays(s, step, lease);
      assert LeaseOk(s.store, lease);
    } else {
      NewLeaseIsReplacement(s, step, key, lease);
      ReplacementKeepsToken(s, step.c);
    }
  }

  lemma NewLeaseIsReplacement(s: State, step: Step, key: Key, lease: LeaseId)
    requires Inv(s) && Enabled(s, step) && lease !in s.used && key in s.store.instances
    requires lease in Next(s, step).store.leases && Next(s, step).store.leases[lease].value.key == key
    ensures step.CommitReplace? && Succeeds(s, step).Some? && s.clients[step.c].lease == lease
    ensures s.clients[step.c].cred.id in s.store.leases && s.store.leases[s.clients[step.c].cred.id].value.key == key
  {
    hide IssuedOk, StoreOk;
    if step.CommitReplace? { assert ClientOk(s.store, s.clients[step.c]); }
  }

  /** The registration still stands under its token, or it is over and its epoch will not return. */
  ghost predicate Lineage(s: State, key: Key, epoch: nat, token: string) {
    || RegisteredWith(s, key, epoch, token)
    || (epoch <= StoredEpoch(s.store, key) && (key in s.store.instances ==> s.store.instances[key].value.epoch > epoch))
  }

  lemma EpochMoves(s: State, step: Step, key: Key)
    requires Inv(s) && Enabled(s, step)
    ensures StoredEpoch(s.store, key) <= StoredEpoch(Next(s, step).store, key)
    ensures key !in s.store.instances && key in Next(s, step).store.instances ==>
              StoredEpoch(s.store, key) < StoredEpoch(Next(s, step).store, key)
  {
    hide IssuedOk, StoreOk;
    if step.CommitRegister? || step.CommitReplace? || step.CommitRefresh? || step.CommitMark? { assert ClientOk(s.store, s.clients[step.c]); }
  }

  lemma LineageStays(s: State, step: Step, key: Key, epoch: nat, token: string)
    requires Inv(s) && Enabled(s, step) && Lineage(s, key, epoch, token)
    ensures Lineage(Next(s, step), key, epoch, token)
  {
    var t := Next(s, step);
    StepKeeps(s, step);
    EpochMoves(s, step, key);
    hide Next, Enabled, IssuedOk, ClientsOk;
    assert key in s.store.instances ==> InstanceOk(s.store, key);
    assert key in t.store.instances ==> InstanceOk(t.store, key);
    if RegisteredWith(s, key, epoch, token) && key in t.store.instances && t.store.instances[key].value.epoch == epoch {
      RegistrationKeepsToken(s, step, key, epoch, token);
    }
  }

  lemma {:induction false} RunLineage(s: State, steps: seq<Step>, t: State, key: Key, epoch: nat, token: string)
    requires Inv(s) && Runs(s, steps, t) && Lineage(s, key, epoch, token)
    ensures Inv(t) && Lineage(t, key, epoch, token)
    decreases |steps|
  {
    hide Inv, Enabled, Next, Lineage;
    if steps != [] {
      StepKeeps(s, steps[0]);
      LineageStays(s, steps[0], key, epoch, token);
      RunLineage(Next(s, steps[0]), steps[1..], t, key, epoch, token);
    }
  }

  /** Whoever does not present the token a registration was made with never renews, replaces or
      removes it, through all its renewals and replacements, in any run. */
  lemma StrangerNeverCommits(before: seq<Step>, s: State, steps: seq<Step>, t: State, key: Key, epoch: nat, token: string, step: Step)
    requires Runs(INITIAL, before, s) && RegisteredWith(s, key, epoch, token) && Runs(s, steps, t)
    requires Enabled(t, step) && Succeeds(t, step).Some? && Succeeds(t, step).value in t.store.leases
    requires t.store.leases[Succeeds(t, step).value].value.key == key
    requires key in t.store.instances && t.store.instances[key].value.epoch == epoch
    ensures t.clients[step.c].cred.token == token
  {
    hide Runs, Lineage, Tokens;
    InitialInv();
    assert Tokens(INITIAL) by { NoTokens(); }
    RunTokens(INITIAL, before, s);
    assert Lineage(s, key, epoch, token) by { Stands(s, key, epoch, token); }
    RunLineage(s, steps, t, key, epoch, token);
    RunTokens(s, steps, t);
    Presented(t, key, epoch, token, step);
  }

  lemma NoTokens()
    ensures Tokens(INITIAL)
  {}

  lemma Stands(s: State, key: Key, epoch: nat, token: string)
    requires RegisteredWith(s, key, epoch, token)
    ensures Lineage(s, key, epoch, token)
  {}

  lemma Presented(t: State, key: Key, epoch: nat, token: string, step: Step)
    requires Inv(t) && Tokens(t) && Lineage(t, key, epoch, token) && Enabled(t, step) && Succeeds(t, step).Some?
    requires Succeeds(t, step).value in t.store.leases && t.store.leases[Succeeds(t, step).value].value.key == key
    requires key in t.store.instances && t.store.instances[key].value.epoch == epoch
    ensures t.clients[step.c].cred.token == token
  {
    hide IssuedOk, ClientsOk;
    OnlyCurrentSucceeds(t, step);
    assert TokenOk(t, t.clients[step.c]);
  }

  // ---- a client that nobody disturbs ------------------------------------------------

  ghost predicate Goes(s: State, step: Step, s1: State) { Enabled(s, step) && Next(s, step) == s1 }

  lemma RunOne(s: State, step: Step, s1: State, rest: seq<Step>, t: State)
    requires Goes(s, step, s1) && Runs(s1, rest, t)
    ensures Runs(s, [step] + rest, t)
  {
    assert ([step] + rest)[1..] == rest;
  }

  lemma RunTwo(s: State, first: Step, s1: State, second: Step, t: State)
    requires Goes(s, first, s1) && Goes(s1, second, t)
    ensures Runs(s, [first] + ([second] + []), t)
  {
    assert Runs(t, [], t);
    hide Runs, Goes;
    RunOne(s1, second, t, [], t);
    RunOne(s, first, s1, [second] + [], t);
  }

  /** A free key is registered, with the next epoch, under the drawn lease and token. */
  lemma AloneRegisters(s: State, c: nat, key: Key, ttl: int, lease: LeaseId, token: string) returns (t: State)
    requires Inv(s) && c !in s.clients && key !in s.store.instances && lease !in s.store.granted
    requires StoredEpoch(s.store, key) != MAX_EPOCH
    ensures Runs(s, [Begin(c, Counting(key, ttl))] + ([ReadEpoch(c)] + ([GrantFirst(c, lease, token)] + ([CommitRegister(c)] + []))), t)
    ensures RegisteredWith(t, key, StoredEpoch(s.store, key) + 1, token) && t.store.instances[key].lease == lease
    ensures t.clients == s.clients
  {
    hide Inv, Runs;
    var epoch, seen := StoredEpoch(s.store, key) + 1, if key in s.store.epochs then Some(s.store.epochs[key].modified) else None;
    var s1, s2 := Goto(s, c, Counting(key, ttl)), Goto(s, c, Granting(key, ttl, epoch, seen));
    var s3 := Goto(s.(store := Granted(s.store, lease)), c, Registering(key, ttl, epoch, seen, lease, token));
    assert Goes(s, Begin(c, Counting(key, ttl)), s1) && Goes(s1, ReadEpoch(c), s2) && Goes(s2, GrantFirst(c, lease, token), s3);
    t := RegisterGoes(s, c, key, ttl, lease, token, epoch, seen);
    hide Goes;
    RunTwo(s2, GrantFirst(c, lease, token), s3, CommitRegister(c), t);
    RunOne(s1, ReadEpoch(c), s2, [GrantFirst(c, lease, token)] + ([CommitRegister(c)] + []), t);
    RunOne(s, Begin(c, Counting(key, ttl)), s1, [ReadEpoch(c)] + ([GrantFirst(c, lease, token)] + ([CommitRegister(c)] + [])), t);
  }

  lemma RegisterGoes(s: State, c: nat, key: Key, ttl: int, lease: LeaseId, token: string, epoch: nat, seen: Option<nat>) returns (t: State)
    requires c !in s.clients && Registrable(s.store, key, seen)
    ensures Goes(Goto(s.(store := Granted(s.store, lease)), c, Registering(key, ttl, epoch, seen, lease, token)), CommitRegister(c), t)
    ensures RegisteredWith(t, key, epoch, token) && t.store.instances[key].lease == lease && t.clients == s.clients
  {
    var s3 := Goto(s.(store := Granted(s.store, lease)), c, Registering(key, ttl, epoch, seen, lease, token));
    assert s3.clients - {c} == s.clients;
    t := Next(s3, CommitRegister(c));
  }

  /** The credential of a live registration. */
  ghost predicate Credited(s: State, cred: Credential) {
    cred.id in s.store.leases && s.store.leases[cred.id].value.token == cred.token
  }

  ghost function Looked(c: nat, cred: Credential, op: Operation, rest: seq<Step>): seq<Step> {
    [Begin(c, Looking(cred, op))] + ([ReadIndex(c)] + ([ReadInstance(c)] + rest))
  }

  /** Both reads succeed for the right token, and the client decides on what is stored. */
  lemma AloneLoads(s: State, c: nat, cred: Credential, op: Operation, rest: seq<Step>, t: State)
    requires Inv(s) && c !in s.clients && Credited(s, cred)
    requires op.Renew? ==> !s.store.instances[s.store.leases[cred.id].value.key].value.removed
    requires var index := s.store.leases[cred.id];
             Runs(Goto(s, c, Deciding(cred, op, index, s.store.instances[index.value.key])), rest, t)
    ensures Runs(s, Looked(c, cred, op, rest), t)
  {
    hide Runs;
    assert LeaseOk(s.store, cred.id);
    var index := s.store.leases[cred.id];
    var s1 := Goto(s, c, Looking(cred, op));
    var s2 := Goto(s, c, Loading(cred, op, index));
    var s3 := Goto(s, c, Deciding(cred, op, index, s.store.instances[index.value.key]));
    hide Inv;
    assert Goes(s, Begin(c, Looking(cred, op)), s1) && Goes(s1, ReadIndex(c), s2) && Goes(s2, ReadInstance(c), s3);
    hide Goes;
    RunOne(s2, ReadInstance(c), s3, rest, t);
    RunOne(s1, ReadIndex(c), s2, [ReadInstance(c)] + rest, t);
    RunOne(s, Begin(c, Looking(cred, op)), s1, [ReadIndex(c)] + ([ReadInstance(c)] + rest), t);
  }

  /** The wrong token is refused at the first read. */
  lemma StrangerIsFenced(s: State, c: nat, cred: Credential, op: Operation)
    requires c in s.clients && s.clients[c] == Looking(cred, op)
    requires cred.id in s.store.leases && s.store.leases[cred.id].value.token != cred.token
    ensures Next(s, ReadIndex(c)) == Return(s, c)
  {}

  ghost predicate CreditedKey(s: State, cred: Credential, key: Key) {
    Credited(s, cred) && s.store.leases[cred.id].value.key == key && key in s.store.instances
  }

  lemma Stored(s: State, cred: Credential, key: Key)
    requires Inv(s) && CreditedKey(s, cred, key)
    ensures s.store.instances[key].lease == cred.id && cred.id in s.store.live && cred.id in s.store.granted
  {
    assert LeaseOk(s.store, cred.id) && InstanceOk(s.store, key);
  }

  /** Renewing with the same time keeps lease, epoch and token and only rewrites the instance. */
  lemma AloneRenews(s: State, c: nat, cred: Credential, key: Key) returns (t: State)
    requires Inv(s) && c !in s.clients && CreditedKey(s, cred, key) && !s.store.instances[key].value.removed
    ensures Runs(s, Looked(c, cred, Renew(s.store.leases[cred.id].value.ttl), [KeepAlive(c, true)] + ([CommitRefresh(c)] + [])), t)
    ensures t.store.leases == s.store.leases && t.clients == s.clients
    ensures t.store.instances == s.store.instances[key := s.store.instances[key].(modified := s.store.revision + 1)]
  {
    hide Inv, Runs;
    Stored(s, cred, key);
    var index, record := s.store.leases[cred.id], s.store.instances[key];
    t := s.(store := PutInstance(s.store, key, record.value, cred.id));
    RenewGoes(s, c, cred, index, record, t);
    var s4 := Goto(s, c, Refreshing(cred, index, record));
    hide Goes;
    RunTwo(Goto(s, c, Deciding(cred, Renew(index.value.ttl), index, record)), KeepAlive(c, true), s4, CommitRefresh(c), t);
    AloneLoads(s, c, cred, Renew(index.value.ttl), [KeepAlive(c, true)] + ([CommitRefresh(c)] + []), t);
  }

  lemma RenewGoes(s: State, c: nat, cred: Credential, index: Kv<Index>, record: Kv<Record>, t: State)
    requires c !in s.clients && Current(s.store, cred, index, record) && cred.id in s.store.live && !record.value.removed
    requires t == s.(store := PutInstance(s.store, index.value.key, record.value, cred.id))
    ensures Goes(Goto(s, c, Deciding(cred, Renew(index.value.ttl), index, record)), KeepAlive(c, true), Goto(s, c, Refreshing(cred, index, record)))
    ensures Goes(Goto(s, c, Refreshing(cred, index, record)), CommitRefresh(c), t)
  {
    assert Goto(s, c, Refreshing(cred, index, record)).clients - {c} == s.clients;
  }

  /** Renewing with another time moves the registration, epoch and token kept, to the new lease. */
  lemma AloneReplaces(s: State, c: nat, cred: Credential, key: Key, ttl: int, lease: LeaseId) returns (t: State)
    requires Inv(s) && c !in s.clients && CreditedKey(s, cred, key) && !s.store.instances[key].value.removed
    requires ttl != s.store.leases[cred.id].value.ttl && lease !in s.store.granted
    ensures Runs(s, Looked(c, cred, Renew(ttl), [GrantReplacement(c, lease)] + ([CommitReplace(c)] + [])), t)
    ensures RegisteredWith(t, key, s.store.instances[key].value.epoch, cred.token)
    ensures t.store.instances[key].lease == lease && t.store.leases[lease].value.ttl == ttl && cred.id !in t.store.leases
  {
    hide Inv, Runs, RegisteredWith;
    Stored(s, cred, key);
    var index, record := s.store.leases[cred.id], s.store.instances[key];
    var s4 := Goto(s.(store := Granted(s.store, lease)), c, Replacing(cred, index, record, ttl, lease));
    t := ReplaceGoes(s, c, cred, index, record, ttl, lease);
    hide Goes;
    RunTwo(Goto(s, c, Deciding(cred, Renew(ttl), index, record)), GrantReplacement(c, lease), s4, CommitReplace(c), t);
    AloneLoads(s, c, cred, Renew(ttl), [GrantReplacement(c, lease)] + ([CommitReplace(c)] + []), t);
  }

  lemma ReplaceGoes(s: State, c: nat, cred: Credential, index: Kv<Index>, record: Kv<Record>, ttl: int, lease: LeaseId) returns (t: State)
    requires Current(s.store, cred, index, record) && s.store.leases[cred.id] == index && !record.value.removed
    requires ttl != index.value.ttl && lease !in s.store.granted && lease != cred.id
    ensures var s4 := Goto(s.(store := Granted(s.store, lease)), c, Replacing(cred, index, record, ttl, lease));
            Goes(Goto(s, c, Deciding(cred, Renew(ttl), index, record)), GrantReplacement(c, lease), s4) && Goes(s4, CommitReplace(c), t)
    ensures RegisteredWith(t, index.value.key, record.value.epoch, index.value.token)
    ensures t.store.instances[index.value.key].lease == lease && t.store.leases[lease].value.ttl == ttl && cred.id !in t.store.leases
  {
    var s4 := Goto(s.(store := Granted(s.store, lease)), c, Replacing(cred, index, record, ttl, lease));
    t := Next(s4, CommitReplace(c));
  }

  /** Unregistering removes instance and index and keeps the epoch. */
  lemma AloneUnregisters(s: State, c: nat, cred: Credential, key: Key) returns (t: State)
    requires Inv(s) && c !in s.clients && CreditedKey(s, cred, key)
    ensures Runs(s, Looked(c, cred, Unregister, [CommitMark(c)] + ([CommitDelete(c)] + [])), t)
    ensures t.store.instances == s.store.instances - {key} && t.store.leases == s.store.leases - {cred.id}
    ensures t.store.epochs == s.store.epochs
  {
    hide Inv, Runs;
    Stored(s, cred, key);
    var index, record := s.store.leases[cred.id], s.store.instances[key];
    t := UnregisterGoes(s, c, cred, index, record);
    var s4 := Goto(s.(store := PutInstance(s.store, key, record.value.(removed := true), cred.id)), c, Deleting(cred, key, s.store.revision + 1));
    hide Goes;
    RunTwo(Goto(s, c, Deciding(cred, Unregister, index, record)), CommitMark(c), s4, CommitDelete(c), t);
    AloneLoads(s, c, cred, Unregister, [CommitMark(c)] + ([CommitDelete(c)] + []), t);
  }

  lemma UnregisterGoes(s: State, c: nat, cred: Credential, index: Kv<Index>, record: Kv<Record>) returns (t: State)
    requires Current(s.store, cred, index, record) && cred.id in s.store.live
    ensures var key := index.value.key;
            var s4 := Goto(s.(store := PutInstance(s.store, key, record.value.(removed := true), cred.id)), c, Deleting(cred, key, s.store.revision + 1));
            && Goes(Goto(s, c, Deciding(cred, Unregister, index, record)), CommitMark(c), s4) && Goes(s4, CommitDelete(c), t)
            && t.store.instances == s.store.instances - {key} && t.store.leases == s.store.leases - {cred.id}
            && t.store.epochs == s.store.epochs
  {
    var key := index.value.key;
    var s4 := Goto(s.(store := PutInstance(s.store, key, record.value.(removed := true), cred.id)), c, Deleting(cred, key, s.store.revision + 1));
    t := Next(s4, CommitDelete(c));
    assert t.store.instances == s.store.instances - {key};
  }

  /** A registration that lost its comparison is a conflict if the key is taken now, and otherwise
      starts over with a new epoch and a new lease. */
  lemma LoserChecks(s: State, c: nat)
    requires Enabled(s, CheckExisting(c))
    ensures var x, t := s.clients[c], Next(s, CheckExisting(c));
            && t.store == s.store
            && (x.key in s.store.instances ==> c !in t.clients)
            && (x.key !in s.store.instances ==> c in t.clients && t.clients[c] == Counting(x.key, x.ttl))
  {}
}
