/**
Repository webhooks: the hooks recorded in the database and the webhooks they stand for on
the VCS host (internal/repohooks). The database rolls back; the host does not.
 */
module Repohooks {
  import opened Prelude

  type ProviderId = string
  type Repo = string
  type HookId = string
  type CloudId = string

  datatype Hook = Hook(provider: ProviderId, repo: Repo, secret: string, cloudId: Option<CloudId>)

  datatype Webhook = Webhook(secret: string, events: seq<string>, endpoint: string)

  /** Where a webhook lives: hosts look webhooks up by repository and ID. */
  datatype Address = Address(provider: ProviderId, repo: Repo, id: CloudId)

  datatype ResourceId = ResourceId(kind: string, id: string)

  datatype Connection = Connection(provider: ProviderId, repo: Repo)

  /** The tables. A provider is recorded with whether it skips repository webhooks; a
      resource has at most one connection. */
  datatype Db = Db(providers: map<ProviderId, bool>, conns: map<ResourceId, Connection>, hooks: map<HookId, Hook>)

  datatype World = World(db: Db, cloud: map<Address, Webhook>)

  const DEFAULT_EVENTS := ["push", "pull"]

  function Endpoint(id: HookId): string { "/webhooks/vcs/" + id }

  /** The webhook a hook calls for. */
  function Wanted(id: HookId, h: Hook): Webhook { Webhook(h.secret, DEFAULT_EVENTS, Endpoint(id)) }

  function AddressOf(h: Hook, id: CloudId): Address { Address(h.provider, h.repo, id) }

  /** What the outside world answers during one call: whether token generation, looking up
      and updating a webhook work, the ID a created webhook gets (None if creation fails),
      and a hook ID and secret nobody else has. */
  datatype Env = Env(
    tokenOk: bool,
    getOk: bool,
    updateOk: bool,
    created: Option<CloudId>,
    newId: HookId,
    newSecret: string)

  /** createAndSync: recording the new ID fails if the hook is not in the table. */
  function CreateAndSync(w: World, id: HookId, h: Hook, env: Env): (World, bool) {
    if env.created.None? then (w, false)
    else
      var cloud := w.cloud[AddressOf(h, env.created.value) := Wanted(id, h)];
      if id !in w.db.hooks then (w.(cloud := cloud), false)
      else (World(w.db.(hooks := w.db.hooks[id := w.db.hooks[id].(cloudId := env.created)]), cloud), true)
  }

  function Sync(w: World, id: HookId, h: Hook, env: Env): (World, bool) {
    if h.cloudId.None? then CreateAndSync(w, id, h, env)
    else if !env.getOk then (w, false)
    else if AddressOf(h, h.cloudId.value) !in w.cloud then CreateAndSync(w, id, h, env)
    else if !env.updateOk then (w, false)
    else (w.(cloud := w.cloud[AddressOf(h, h.cloudId.value) := Wanted(id, h)]), true)
  }

  predicate IsFor(h: Hook, provider: ProviderId, repo: Repo) { h.provider == provider && h.repo == repo }

  /** The first row of the query for a repository's hook. */
  ghost function Find(hooks: map<HookId, Hook>, provider: ProviderId, repo: Repo): (r: Option<HookId>)
    ensures r.Some? ==> r.value in hooks && IsFor(hooks[r.value], provider, repo)
    ensures r.None? ==> forall id :: id in hooks ==> !IsFor(hooks[id], provider, repo)
  {
    if exists id :: id in hooks && IsFor(hooks[id], provider, repo)
    then var id :| id in hooks && IsFor(hooks[id], provider, repo); Some(id)
    else None
  }

  ghost function GetOrCreate(db: Db, provider: ProviderId, repo: Repo, env: Env): (Db, HookId) {
    var found := Find(db.hooks, provider, repo);
    if found.Some? then (db, found.value)
    else (db.(hooks := db.hooks[env.newId := Hook(provider, repo, env.newSecret, None)]), env.newId)
  }

  ghost function CreateRepohook(w: World, provider: ProviderId, repo: Repo, env: Env): (World, bool) {
    if provider !in w.db.providers then (w, false)
    else if w.db.providers[provider] then (w, true)
    else if !env.tokenOk then (w, false)
    else
      var (db, id) := GetOrCreate(w.db, provider, repo, env);
      Sync(w.(db := db), id, db.hooks[id], env)
  }

  /** deleteRepohook for each listed hook, in order: the row goes, then the webhook, whose
      deletion may fail without consequence; failing to look up the provider aborts. The
      hook's cloud ID is dereferenced, so it must be there. */
  function DeleteEach(w: World, ids: seq<HookId>, providerOk: HookId -> bool, deleteOk: HookId -> bool): (World, bool)
    requires forall i :: 0 <= i < |ids| ==> ids[i] in w.db.hooks && w.db.hooks[ids[i]].cloudId.Some?
    requires forall i, j :: 0 <= i < j < |ids| ==> ids[i] != ids[j]
    decreases |ids|
  {
    if ids == [] then (w, true)
    else
      var id := ids[0];
      var h := w.db.hooks[id];
      var db := w.db.(hooks := w.db.hooks - {id});
      if !providerOk(id) then (w.(db := db), false)
      else
        var cloud := if deleteOk(id) then w.cloud - {AddressOf(h, h.cloudId.value)} else w.cloud;
        DeleteEach(World(db, cloud), ids[1..], providerOk, deleteOk)
  }

  /* ---------- Synchronising ---------- */

  /** The database records the hook's webhook and the host has it, as wanted. */
  predicate InSync(w: World, id: HookId) {
    && id in w.db.hooks
    && var h := w.db.hooks[id];
       h.cloudId.Some? && AddressOf(h, h.cloudId.value) in w.cloud && w.cloud[AddressOf(h, h.cloudId.value)] == Wanted(id, h)
  }

  /** Whatever the host held before, a successful sync leaves the hook in sync under its
      stored cloud ID, and disturbs no other hook and no other webhook. */
  lemma SyncInstalls(w: World, id: HookId, env: Env)
    requires id in w.db.hooks && Sync(w, id, w.db.hooks[id], env).1
    ensures var w', h := Sync(w, id, w.db.hooks[id], env).0, w.db.hooks[id];
            && id in w'.db.hooks && w'.db.hooks[id].cloudId.Some?
            && var address := Address(h.provider, h.repo, w'.db.hooks[id].cloudId.value);
               && address in w'.cloud
               && w'.cloud[address].secret == h.secret && w'.cloud[address].events == ["push", "pull"]
               && w'.cloud[address].endpoint == "/webhooks/vcs/" + id
    ensures var w' := Sync(w, id, w.db.hooks[id], env).0;
            && InSync(w', id)
            && w'.db == w.db.(hooks := w.db.hooks[id := w.db.hooks[id].(cloudId := w'.db.hooks[id].cloudId)])
            && w'.cloud == w.cloud[AddressOf(w.db.hooks[id], w'.db.hooks[id].cloudId.value) := Wanted(id, w.db.hooks[id])]
  {
    assert w.db.hooks[id := w.db.hooks[id]] == w.db.hooks;
  }

  /** Hooks have endpoints of their own, so the host's events find their way back. */
  lemma EndpointsDiffer(a: HookId, b: HookId)
    requires a != b
    ensures Endpoint(a) != Endpoint(b)
  {
    assert Endpoint(a)[|Endpoint("")|..] == a && Endpoint(b)[|Endpoint("")|..] == b;
  }

  /** A sync succeeds exactly when the host does what it is asked: to create a webhook if it is
      known to have none, else to look it up and update it. */
  lemma SyncSucceedsIff(w: World, id: HookId, env: Env)
    requires id in w.db.hooks
    ensures var h := w.db.hooks[id];
            var has := h.cloudId.Some? && Address(h.provider, h.repo, h.cloudId.value) in w.cloud;
            Sync(w, id, h, env).1 <==>
              if h.cloudId.None? then env.created.Some? else env.getOk && if has then env.updateOk else env.created.Some?
  {
  }

  /** A second sync of the stored hook changes nothing: it creates no further webhook. */
  lemma SyncTwiceIsOnce(w: World, id: HookId, env: Env, env': Env)
    requires id in w.db.hooks && Sync(w, id, w.db.hooks[id], env).1
    ensures var w' := Sync(w, id, w.db.hooks[id], env).0;
            Sync(w', id, w'.db.hooks[id], env') == (w', env'.getOk && env'.updateOk)
  {
    SyncInstalls(w, id, env);
    var w' := Sync(w, id, w.db.hooks[id], env).0;
    var h := w'.db.hooks[id];
    assert w'.cloud[AddressOf(h, h.cloudId.value) := Wanted(id, h)] == w'.cloud;
  }

  /** A webhook is created exactly when the stored hook has none on the host and the host
      agrees; only then does the host gain anything. */
  lemma SyncCreatesIffMissing(w: World, id: HookId, env: Env)
    requires id in w.db.hooks
    requires env.created.Some? ==> AddressOf(w.db.hooks[id], env.created.value) !in w.cloud
    ensures var h := w.db.hooks[id]; var w' := Sync(w, id, h, env).0;
            var missing := h.cloudId.None? || (env.getOk && AddressOf(h, h.cloudId.value) !in w.cloud);
            && (missing && env.created.Some? ==> w'.cloud.Keys == w.cloud.Keys + {AddressOf(h, env.created.value)})
            && (!(missing && env.created.Some?) ==> w'.cloud.Keys == w.cloud.Keys)
  {
  }

  /* ---------- Deleting ---------- */

  function Addresses(hooks: map<HookId, Hook>, ids: set<HookId>): set<Address> {
    set id | id in ids && id in hooks && hooks[id].cloudId.Some? :: AddressOf(hooks[id], hooks[id].cloudId.value)
  }

  function Agreed(ids: seq<HookId>, deleteOk: HookId -> bool): set<HookId> { set id | id in ids && deleteOk(id) }

  lemma AgreedHead(hooks: map<HookId, Hook>, ids: seq<HookId>, deleteOk: HookId -> bool)
    requires ids != [] && ids[0] in hooks && hooks[ids[0]].cloudId.Some? && ids[0] !in ids[1..]
    ensures Addresses(hooks, Agreed(ids, deleteOk)) ==
            Addresses(hooks - {ids[0]}, Agreed(ids[1..], deleteOk))
            + if deleteOk(ids[0]) then {AddressOf(hooks[ids[0]], hooks[ids[0]].cloudId.value)} else {}
  {
    var id, rest := ids[0], ids[1..];
    assert ids == [id] + rest;
    assert Agreed(ids, deleteOk) == Agreed(rest, deleteOk) + if deleteOk(id) then {id} else {};
    forall k | k in Agreed(rest, deleteOk) ensures k != id {}
  }

  /** Deleting a list of hooks removes those rows and no others, and succeeds exactly when
      every provider can be looked up. The host then loses exactly the webhooks it agreed
      to delete; after a failure it may have lost some of them already. */
  lemma {:induction false} DeleteEachDeletes(w: World, ids: seq<HookId>, providerOk: HookId -> bool, deleteOk: HookId -> bool)
    requires forall i :: 0 <= i < |ids| ==> ids[i] in w.db.hooks && w.db.hooks[ids[i]].cloudId.Some?
    requires forall i, j :: 0 <= i < j < |ids| ==> ids[i] != ids[j]
    ensures var (w', ok) := DeleteEach(w, ids, providerOk, deleteOk);
            && (ok <==> forall id :: id in ids ==> providerOk(id))
            && (ok ==> w'.db == w.db.(hooks := w.db.hooks - Elements(ids)))
            && (ok ==> w'.cloud == w.cloud - Addresses(w.db.hooks, Agreed(ids, deleteOk)))
            && w'.cloud.Keys <= w.cloud.Keys
    decreases |ids|
  {
    if ids == [] {
      assert w.db.hooks - {} == w.db.hooks;
      assert w.cloud - Addresses(w.db.hooks, Agreed(ids, deleteOk)) == w.cloud;
    } else {
      var id, rest := ids[0], ids[1..];
      assert ids == [id] + rest;
      if providerOk(id) {
        var h := w.db.hooks[id];
        var w1 := World(w.db.(hooks := w.db.hooks - {id}),
                        if deleteOk(id) then w.cloud - {AddressOf(h, h.cloudId.value)} else w.cloud);
        DeleteEachDeletes(w1, rest, providerOk, deleteOk);
        assert (w.db.hooks - {id}) - Elements(rest) == w.db.hooks - Elements(ids);
        AgreedHead(w.db.hooks, ids, deleteOk);
        assert w1.cloud - Addresses(w1.db.hooks, Agreed(rest, deleteOk)) == w.cloud - Addresses(w.db.hooks, Agreed(ids, deleteOk));
      }
    }
  }
}
