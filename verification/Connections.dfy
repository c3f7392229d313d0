/** Connecting resources to repositories (internal/connections): every connection and
    disconnection is one transaction over the connections and hooks tables. */
module Connections {
  import opened Prelude
  import opened Repohooks

  /** Only workspaces and modules can be connected. */
  predicate Connectable(r: ResourceId) { r.kind == "ws" || r.kind == "mod" }

  /** Connect: any error undoes the database changes but not those made on the host. */
  ghost function Connect(w: World, r: ResourceId, provider: ProviderId, repo: Repo, resourceFound: bool, env: Env): (World, bool) {
    var (w1, hooked) := CreateRepohook(w, provider, repo, env);
    if !hooked || !Connectable(r) || !resourceFound || r in w.db.conns then (World(w.db, w1.cloud), false)
    else (World(w1.db.(conns := w1.db.conns[r := Connection(provider, repo)]), w1.cloud), true)
  }

  predicate References(c: Connection, h: Hook) { c.provider == h.provider && c.repo == h.repo }

  predicate Referenced(db: Db, h: Hook) { exists r :: r in db.conns && References(db.conns[r], h) }

  function Unreferenced(db: Db): set<HookId> {
    set id | id in db.hooks && !Referenced(db, db.hooks[id])
  }

  /** The query returned exactly these hooks, in some order. */
  predicate ListsHooks(ids: seq<HookId>, hooks: set<HookId>) {
    && (forall i :: 0 <= i < |ids| ==> ids[i] in hooks)
    && (forall id :: id in hooks ==> id in ids)
    && forall i, j :: 0 <= i < j < |ids| ==> ids[i] != ids[j]
  }

  function WithoutConnection(db: Db, r: ResourceId): Db { db.(conns := db.conns - {r}) }

  /** Disconnect; `listed` is the order in which the unreferenced hooks are returned.
      Deleting a connection that is not there is an error. */
  function Disconnect(w: World, r: ResourceId, listed: seq<HookId>, providerOk: HookId -> bool, deleteOk: HookId -> bool): (World, bool)
    requires AllSynced(w.db) && ListsHooks(listed, Unreferenced(WithoutConnection(w.db, r)))
  {
    if !Connectable(r) || r !in w.db.conns then (w, false)
    else
      var (w1, ok) := DeleteEach(w.(db := WithoutConnection(w.db, r)), listed, providerOk, deleteOk);
      if ok then (w1, true) else (World(w.db, w1.cloud), false)
  }

  function HooksOf(db: Db, p: ProviderId): set<HookId> { set id | id in db.hooks && db.hooks[id].provider == p }

  /** Deleting a provider first deletes its hooks, then its row, which takes the provider's
      connections with it. */
  function DeleteProvider(w: World, p: ProviderId, listed: seq<HookId>, providerOk: HookId -> bool, deleteOk: HookId -> bool): (World, bool)
    requires AllSynced(w.db) && ListsHooks(listed, HooksOf(w.db, p))
  {
    if p !in w.db.providers then (w, false)
    else
      var (w1, ok) := DeleteEach(w, listed, providerOk, deleteOk);
      if !ok then (World(w.db, w1.cloud), false)
      else
        (w1.(db := Db(w1.db.providers - {p},
                      map r | r in w1.db.conns && w1.db.conns[r].provider != p :: w1.db.conns[r],
                      w1.db.hooks)), true)
  }

  /* ---------- What every transaction keeps ---------- */

  predicate UniqueHooks(db: Db) {
    forall a, b :: a in db.hooks && b in db.hooks && IsFor(db.hooks[a], db.hooks[b].provider, db.hooks[b].repo) ==> a == b
  }

  /** So dereferencing a hook's cloud ID is safe. */
  predicate AllSynced(db: Db) { forall id :: id in db.hooks ==> db.hooks[id].cloudId.Some? }

  predicate Covered(db: Db, c: Connection) { exists id :: id in db.hooks && References(c, db.hooks[id]) }

  /** Connections on providers with webhooks have a hook. */
  predicate AllCovered(db: Db) {
    forall r :: r in db.conns ==>
      && db.conns[r].provider in db.providers
      && (!db.providers[db.conns[r].provider] ==> Covered(db, db.conns[r]))
  }

  predicate AllReferenced(db: Db) {
    forall id :: id in db.hooks ==>
      && Referenced(db, db.hooks[id])
      && db.hooks[id].provider in db.providers && !db.providers[db.hooks[id].provider]
  }

  predicate Inv(db: Db) { UniqueHooks(db) && AllSynced(db) && AllCovered(db) && AllReferenced(db) }

  /** Hooks are for providers with webhooks. */
  predicate HooksAllowed(db: Db) {
    forall id :: id in db.hooks ==> db.hooks[id].provider in db.providers && !db.providers[db.hooks[id].provider]
  }

  /** All but that every hook is referenced. */
  predicate InvButForReferences(db: Db) { UniqueHooks(db) && AllSynced(db) && AllCovered(db) && HooksAllowed(db) }

  /** The hook ID is new, and the host gives a new webhook an ID of its own. */
  predicate FreshFor(w: World, provider: ProviderId, repo: Repo, env: Env) {
    && env.newId !in w.db.hooks
    && (env.created.Some? ==> Address(provider, repo, env.created.value) !in w.cloud)
  }

  /** A successful CreateRepohook on a provider with webhooks leaves one hook for the
      repository, in sync, next to the hooks that were there. */
  lemma CreateRepohookCreates(w: World, provider: ProviderId, repo: Repo, env: Env)
    requires UniqueHooks(w.db) && AllSynced(w.db) && FreshFor(w, provider, repo, env)
    requires CreateRepohook(w, provider, repo, env).1
    ensures var w' := CreateRepohook(w, provider, repo, env).0;
            && provider in w.db.providers
            && w'.db.providers == w.db.providers && w'.db.conns == w.db.conns
            && UniqueHooks(w'.db) && AllSynced(w'.db)
            && w.db.hooks.Keys <= w'.db.hooks.Keys
            && (forall id :: id in w.db.hooks ==> w'.db.hooks[id] == w.db.hooks[id].(cloudId := w'.db.hooks[id].cloudId))
            && (forall id :: id in w'.db.hooks && id !in w.db.hooks ==>
                  && id == env.newId && w'.db.hooks[id].secret == env.newSecret
                  && IsFor(w'.db.hooks[id], provider, repo) && !w.db.providers[provider])
            && (!w.db.providers[provider] ==>
                  exists id :: id in w'.db.hooks && IsFor(w'.db.hooks[id], provider, repo) && InSync(w', id))
  {
    if !w.db.providers[provider] {
      var (db, id) := GetOrCreate(w.db, provider, repo, env);
      SyncInstalls(w.(db := db), id, env);
      var w' := CreateRepohook(w, provider, repo, env).0;
      assert id in w'.db.hooks && IsFor(w'.db.hooks[id], provider, repo) && InSync(w', id);
    }
  }

  /** Only workspaces and modules that exist and are not connected can be, if the repository's
      hook can be set up; what is recorded is the connection asked for. */
  lemma ConnectSucceedsIff(w: World, r: ResourceId, provider: ProviderId, repo: Repo, resourceFound: bool, env: Env)
    requires Inv(w.db) && FreshFor(w, provider, repo, env)
    ensures var (w', ok) := Connect(w, r, provider, repo, resourceFound, env);
            && (ok <==> CreateRepohook(w, provider, repo, env).1 && (r.kind == "ws" || r.kind == "mod") && resourceFound && r !in w.db.conns)
            && (ok ==> w'.db.conns == w.db.conns[r := Connection(provider, repo)] && w'.db.providers == w.db.providers)
            && (!ok ==> w'.db == w.db)
  {
    if Connect(w, r, provider, repo, resourceFound, env).1 { CreateRepohookCreates(w, provider, repo, env); }
  }

  /** A hook can be set up exactly when the provider is found and skips webhooks, or has a token
      and the sync of the repository's hook succeeds. */
  lemma CreateRepohookSucceedsIff(w: World, provider: ProviderId, repo: Repo, env: Env)
    requires UniqueHooks(w.db) && AllSynced(w.db) && FreshFor(w, provider, repo, env)
    ensures CreateRepohook(w, provider, repo, env).1 <==>
            && provider in w.db.providers
            && (w.db.providers[provider]
                || (env.tokenOk
                    && ((forall id :: id in w.db.hooks ==> !IsFor(w.db.hooks[id], provider, repo)) ==> env.created.Some?)
                    && forall id :: id in w.db.hooks && IsFor(w.db.hooks[id], provider, repo) ==>
                         && env.getOk
                         && if Address(provider, repo, w.db.hooks[id].cloudId.value) in w.cloud then env.updateOk else env.created.Some?))
  {
    if provider in w.db.providers && !w.db.providers[provider] {
      var (db, id) := GetOrCreate(w.db, provider, repo, env);
      SyncSucceedsIff(w.(db := db), id, env);
    }
  }

  lemma ConnectKeepsInv(w: World, r: ResourceId, provider: ProviderId, repo: Repo, resourceFound: bool, env: Env)
    requires Inv(w.db) && FreshFor(w, provider, repo, env)
    ensures Inv(Connect(w, r, provider, repo, resourceFound, env).0.db)
  {
    var (w', ok) := Connect(w, r, provider, repo, resourceFound, env);
    if ok {
      CreateRepohookCreates(w, provider, repo, env);
      var c := Connection(provider, repo);
      forall k | k in w'.db.conns
        ensures w'.db.conns[k].provider in w'.db.providers
        ensures !w'.db.providers[w'.db.conns[k].provider] ==> Covered(w'.db, w'.db.conns[k])
      {
        if k != r && !w.db.providers[w.db.conns[k].provider] {
          var id :| id in w.db.hooks && References(w.db.conns[k], w.db.hooks[id]);
          assert References(w'.db.conns[k], w'.db.hooks[id]);
        }
      }
      forall id | id in w'.db.hooks ensures Referenced(w'.db, w'.db.hooks[id]) {
        if id in w.db.hooks {
          var k :| k in w.db.conns && References(w.db.conns[k], w.db.hooks[id]);
          assert References(w'.db.conns[k], w'.db.hooks[id]);
        } else {
          assert References(w'.db.conns[r], w'.db.hooks[id]);
        }
      }
    }
  }

  lemma DisconnectKeepsInv(w: World, r: ResourceId, listed: seq<HookId>, providerOk: HookId -> bool, deleteOk: HookId -> bool)
    requires Inv(w.db) && ListsHooks(listed, Unreferenced(WithoutConnection(w.db, r)))
    ensures Inv(Disconnect(w, r, listed, providerOk, deleteOk).0.db)
  {
    var (w', ok) := Disconnect(w, r, listed, providerOk, deleteOk);
    if ok {
      var db := WithoutConnection(w.db, r);
      DeleteEachDeletes(w.(db := db), listed, providerOk, deleteOk);
      assert Elements(listed) == Unreferenced(db);
      SweepKeepsInv(w.db, r, w'.db);
    }
  }

  /** Removing a connection and then every hook left without one, whether or not there were
      such hooks before. */
  lemma SweepKeepsInv(db: Db, r: ResourceId, db': Db)
    requires InvButForReferences(db)
    requires var less := WithoutConnection(db, r); db' == less.(hooks := less.hooks - Unreferenced(less))
    ensures Inv(db')
  {
    var less := WithoutConnection(db, r);
    forall k | k in db'.conns && !db'.providers[db'.conns[k].provider] ensures Covered(db', db'.conns[k]) {
      assert Covered(db, db.conns[k]);
      var id :| id in db.hooks && References(db.conns[k], db.hooks[id]);
      assert Referenced(less, less.hooks[id]) by { assert References(less.conns[k], less.hooks[id]); }
      assert id in db'.hooks && References(db'.conns[k], db'.hooks[id]);
    }
    forall id | id in db'.hooks ensures Referenced(db', db'.hooks[id]) {
      assert id !in Unreferenced(less);
      var k :| k in less.conns && References(less.conns[k], less.hooks[id]);
      assert References(db'.conns[k], db'.hooks[id]);
    }
  }

  lemma DeleteProviderKeepsInv(w: World, p: ProviderId, listed: seq<HookId>, providerOk: HookId -> bool, deleteOk: HookId -> bool)
    requires Inv(w.db) && ListsHooks(listed, HooksOf(w.db, p))
    ensures Inv(DeleteProvider(w, p, listed, providerOk, deleteOk).0.db)
  {
    var (w', ok) := DeleteProvider(w, p, listed, providerOk, deleteOk);
    if ok {
      DeleteEachDeletes(w, listed, providerOk, deleteOk);
      assert Elements(listed) == HooksOf(w.db, p);
      var db, db' := w.db, w'.db;
      forall k | k in db'.conns && !db'.providers[db'.conns[k].provider] ensures Covered(db', db'.conns[k]) {
        assert Covered(db, db.conns[k]);
        var id :| id in db.hooks && References(db.conns[k], db.hooks[id]);
        assert References(db'.conns[k], db'.hooks[id]);
      }
      forall id | id in db'.hooks ensures Referenced(db', db'.hooks[id]) {
        assert Referenced(db, db.hooks[id]);
        var k :| k in db.conns && References(db.conns[k], db.hooks[id]);
        assert References(db'.conns[k], db'.hooks[id]);
      }
    }
  }

  /** Disconnecting succeeds exactly for a workspace or module that is connected, if the
      providers of the hooks to go are found; then its connection goes, and the hooks without
      one. */
  lemma DisconnectSucceedsIff(w: World, r: ResourceId, listed: seq<HookId>, providerOk: HookId -> bool, deleteOk: HookId -> bool)
    requires Inv(w.db) && ListsHooks(listed, Unreferenced(WithoutConnection(w.db, r)))
    ensures var (w', ok) := Disconnect(w, r, listed, providerOk, deleteOk);
            && (ok <==> (r.kind == "ws" || r.kind == "mod") && r in w.db.conns && forall id :: id in listed ==> providerOk(id))
            && (ok ==> w'.db == Db(w.db.providers, w.db.conns - {r}, w.db.hooks - Elements(listed)))
            && (!ok ==> w'.db == w.db)
  {
    DeleteEachDeletes(w.(db := WithoutConnection(w.db, r)), listed, providerOk, deleteOk);
  }

  /** Deleting a provider succeeds exactly if it is there and can be looked up for its hooks;
      then it goes with its connections and hooks, and nothing else. */
  lemma DeleteProviderDeletes(w: World, p: ProviderId, listed: seq<HookId>, providerOk: HookId -> bool, deleteOk: HookId -> bool)
    requires Inv(w.db) && ListsHooks(listed, HooksOf(w.db, p))
    ensures var (w', ok) := DeleteProvider(w, p, listed, providerOk, deleteOk);
            && (ok <==> p in w.db.providers && forall id :: id in listed ==> providerOk(id))
            && (!ok ==> w'.db == w.db)
            && (ok ==>
                  && w'.db.providers == w.db.providers - {p}
                  && (forall r :: r in w'.db.conns <==> r in w.db.conns && w.db.conns[r].provider != p)
                  && (forall r :: r in w'.db.conns ==> w'.db.conns[r] == w.db.conns[r])
                  && (forall id :: id in w'.db.hooks <==> id in w.db.hooks && w.db.hooks[id].provider != p)
                  && (forall id :: id in w'.db.hooks ==> w'.db.hooks[id] == w.db.hooks[id]))
  {
    DeleteEachDeletes(w, listed, providerOk, deleteOk);
    assert Elements(listed) == HooksOf(w.db, p);
  }

  /* ---------- Runs ---------- */

  /** One transaction, or the host changing by itself. */
  datatype Op =
    | ConnectOp(r: ResourceId, provider: ProviderId, repo: Repo, resourceFound: bool, env: Env)
    | DisconnectOp(r: ResourceId, listed: seq<HookId>, providerOk: HookId -> bool, deleteOk: HookId -> bool)
    | DeleteProviderOp(p: ProviderId, listed: seq<HookId>, providerOk: HookId -> bool, deleteOk: HookId -> bool)
    | AddProviderOp(p: ProviderId, skip: bool)
    | HostChanges(cloud: map<Address, Webhook>)

  /** What the environment must live up to: fresh IDs, and queries that return what is there. */
  ghost predicate Possible(w: World, op: Op) {
    match op
    case ConnectOp(_, provider, repo, _, env) => FreshFor(w, provider, repo, env)
    case DisconnectOp(r, listed, _, _) => ListsHooks(listed, Unreferenced(WithoutConnection(w.db, r)))
    case DeleteProviderOp(p, listed, _, _) => ListsHooks(listed, HooksOf(w.db, p))
    case AddProviderOp(p, _) => p !in w.db.providers
    case HostChanges(_) => true
  }

  ghost function Do(w: World, op: Op): World
    requires AllSynced(w.db) && Possible(w, op)
  {
    match op
    case ConnectOp(r, provider, repo, resourceFound, env) => Connect(w, r, provider, repo, resourceFound, env).0
    case DisconnectOp(r, listed, providerOk, deleteOk) => Disconnect(w, r, listed, providerOk, deleteOk).0
    case DeleteProviderOp(p, listed, providerOk, deleteOk) => DeleteProvider(w, p, listed, providerOk, deleteOk).0
    case AddProviderOp(p, skip) => w.(db := w.db.(providers := w.db.providers[p := skip]))
    case HostChanges(cloud) => w.(cloud := cloud)
  }

  /** A transaction takes one world to the next. Were a hook without a cloud ID, its
      dereference would crash and nothing would be promised. */
  ghost predicate Next(w: World, op: Op, w': World) {
    Possible(w, op) && (AllSynced(w.db) ==> w' == Do(w, op))
  }

  lemma DoKeepsInv(w: World, op: Op)
    requires Inv(w.db) && Possible(w, op)
    ensures Inv(Do(w, op).db)
    ensures op.AddProviderOp? ==> Do(w, op) == w.(db := w.db.(providers := w.db.providers[op.p := op.skip]))
    ensures op.HostChanges? ==> Do(w, op) == World(w.db, op.cloud)
  {
    match op
    case ConnectOp(r, provider, repo, resourceFound, env) => ConnectKeepsInv(w, r, provider, repo, resourceFound, env);
    case DisconnectOp(r, listed, providerOk, deleteOk) => DisconnectKeepsInv(w, r, listed, providerOk, deleteOk);
    case DeleteProviderOp(p, listed, providerOk, deleteOk) => DeleteProviderKeepsInv(w, p, listed, providerOk, deleteOk);
    case AddProviderOp(p, skip) => AddProviderKeepsInv(w.db, p, skip);
    case HostChanges(cloud) =>
  }

  lemma AddProviderKeepsInv(db: Db, p: ProviderId, skip: bool)
    requires Inv(db) && p !in db.providers
    ensures Inv(db.(providers := db.providers[p := skip]))
  {
    var db' := db.(providers := db.providers[p := skip]);
    forall r | r in db'.conns && !db'.providers[db'.conns[r].provider] ensures Covered(db', db'.conns[r]) {
      assert Covered(db, db.conns[r]);
      var id :| id in db.hooks && References(db.conns[r], db.hooks[id]);
      assert References(db'.conns[r], db'.hooks[id]);
    }
    forall id | id in db'.hooks ensures Referenced(db', db'.hooks[id]) {
      assert Referenced(db, db.hooks[id]);
      var k :| k in db.conns && References(db.conns[k], db.hooks[id]);
      assert References(db'.conns[k], db'.hooks[id]);
    }
  }

  /** A run from an empty installation. */
  ghost predicate IsRun(ws: seq<World>, ops: seq<Op>) {
    && |ws| == |ops| + 1
    && ws[0].db == Db(map[], map[], map[])
    && forall i :: 0 <= i < |ops| ==> Next(ws[i], ops[i], ws[i + 1])
  }

  /** After every transaction of every run, committed or rolled back: hooks are unique per
      repository, each has a cloud ID, connections on providers with webhooks have a hook,
      and every hook is referenced by a connection. */
  lemma {:induction false} TablesStayConsistent(ws: seq<World>, ops: seq<Op>, n: nat)
    requires IsRun(ws, ops) && n < |ws|
    ensures var db := ws[n].db; UniqueHooks(db) && AllSynced(db) && AllCovered(db) && AllReferenced(db)
  {
    if n > 0 {
      TablesStayConsistent(ws, ops, n - 1);
      assert Next(ws[n - 1], ops[n - 1], ws[n]);
      DoKeepsInv(ws[n - 1], ops[n - 1]);
    }
  }

  /* ---------- Failures ---------- */

  /** Getting to the point of connecting means creating a webhook: the provider has webhooks
      and a token, the host creates webhooks, and any hook there is for the repository is
      known to have lost its own. */
  predicate CreatesWebhook(w: World, provider: ProviderId, repo: Repo, env: Env)
    requires AllSynced(w.db)
  {
    && provider in w.db.providers && !w.db.providers[provider]
    && env.tokenOk && env.created.Some?
    && forall id :: id in w.db.hooks && IsFor(w.db.hooks[id], provider, repo) ==>
         env.getOk && AddressOf(w.db.hooks[id], w.db.hooks[id].cloudId.value) !in w.cloud
  }

  /** A failed connection leaves the database as it was, but not the host: that keeps one new
      webhook exactly when connecting got as far as creating one. */
  lemma FailedConnectLeavesWebhookIff(w: World, r: ResourceId, provider: ProviderId, repo: Repo, resourceFound: bool, env: Env)
    requires Inv(w.db) && FreshFor(w, provider, repo, env)
    requires !Connect(w, r, provider, repo, resourceFound, env).1
    ensures var w' := Connect(w, r, provider, repo, resourceFound, env).0;
            && w'.db == w.db
            && w'.cloud.Keys == w.cloud.Keys
                                + if CreatesWebhook(w, provider, repo, env) then {Address(provider, repo, env.created.value)} else {}
    ensures env.created.Some? ==> Address(provider, repo, env.created.value) !in w.cloud
  {
  }

  /** So connecting a resource that is connected already to a repository without a hook is
      refused, and leaves a webhook that nothing in the database stands for. */
  lemma RefusedConnectLeavesWebhook(w: World, r: ResourceId, provider: ProviderId, repo: Repo, env: Env)
    requires Inv(w.db) && FreshFor(w, provider, repo, env) && r in w.db.conns
    requires provider in w.db.providers && !w.db.providers[provider] && env.tokenOk && env.created.Some?
    requires Find(w.db.hooks, provider, repo).None?
    ensures var (w', ok) := Connect(w, r, provider, repo, true, env);
            && !ok && w'.db == w.db
            && Address(provider, repo, env.created.value) in w'.cloud
            && forall id :: id in w'.db.hooks ==> !IsFor(w'.db.hooks[id], provider, repo)
  {
    FailedConnectLeavesWebhookIff(w, r, provider, repo, true, env);
  }
}
