/** The repohook and connection services as methods that change the tables and the host step
    by step, each proved to have the effect that Repohooks and Connections describe. */
module ConnectionService {
  import opened Prelude
  import opened Repohooks
  import opened Connections

  class Service {
    var providers: map<ProviderId, bool>
    var conns: map<ResourceId, Connection>
    var hooks: map<HookId, Hook>
    var cloud: map<Address, Webhook>

    function Abs(): World
      reads this
    {
      World(Db(providers, conns, hooks), cloud)
    }

    method GetOrCreateHook(provider: ProviderId, repo: Repo, env: Env) returns (id: HookId)
      requires UniqueHooks(Abs().db)
      modifies this`hooks
      ensures (Abs().db, id) == GetOrCreate(old(Abs().db), provider, repo, env)
      ensures id in hooks
    {
      if exists k :: k in hooks && IsFor(hooks[k], provider, repo) {
        id :| id in hooks && IsFor(hooks[id], provider, repo);
      } else {
        id := env.newId;
        hooks := hooks[id := Hook(provider, repo, env.newSecret, None)];
      }
    }

    method CreateAndSync(id: HookId, env: Env) returns (ok: bool)
      requires id in hooks
      modifies this`hooks, this`cloud
      ensures (Abs(), ok) == Repohooks.CreateAndSync(old(Abs()), id, old(hooks)[id], env)
    {
      if env.created.None? {
        return false;
      }
      cloud := cloud[AddressOf(hooks[id], env.created.value) := Wanted(id, hooks[id])];
      hooks := hooks[id := hooks[id].(cloudId := env.created)];
      return true;
    }

    method Sync(id: HookId, env: Env) returns (ok: bool)
      requires id in hooks
      modifies this`hooks, this`cloud
      ensures (Abs(), ok) == Repohooks.Sync(old(Abs()), id, old(hooks)[id], env)
    {
      var h := hooks[id];
      if h.cloudId.None? {
        ok := CreateAndSync(id, env);
        return;
      }
      if !env.getOk {
        return false;
      }
      var address := AddressOf(h, h.cloudId.value);
      if address !in cloud {
        ok := CreateAndSync(id, env);
        return;
      }
      if !env.updateOk {
        return false;
      }
      cloud := cloud[address := Wanted(id, h)];
      return true;
    }

    method CreateRepohook(provider: ProviderId, repo: Repo, env: Env) returns (ok: bool)
      requires UniqueHooks(Abs().db)
      modifies this`hooks, this`cloud
      ensures (Abs(), ok) == Repohooks.CreateRepohook(old(Abs()), provider, repo, env)
    {
      if provider !in providers {
        return false;
      }
      if providers[provider] {
        return true;
      }
      if !env.tokenOk {
        return false;
      }
      var id := GetOrCreateHook(provider, repo, env);
      ok := Sync(id, env);
    }

    method Connect(r: ResourceId, provider: ProviderId, repo: Repo, resourceFound: bool, env: Env) returns (ok: bool)
      requires Inv(Abs().db) && FreshFor(Abs(), provider, repo, env)
      modifies this
      ensures (Abs(), ok) == Connections.Connect(old(Abs()), r, provider, repo, resourceFound, env)
      ensures Inv(Abs().db)
    {
      ConnectKeepsInv(Abs(), r, provider, repo, resourceFound, env);
      var saved := hooks;
      ok := CreateRepohook(provider, repo, env);
      if !ok || !Connectable(r) || !resourceFound || r in conns {
        hooks := saved; // roll back
        return false;
      }
      conns := conns[r := Connection(provider, repo)];
    }

    /** The loop over the listed hooks. */
    method DeleteRepohooks(listed: seq<HookId>, providerOk: HookId -> bool, deleteOk: HookId -> bool) returns (ok: bool)
      requires forall i :: 0 <= i < |listed| ==> listed[i] in hooks && hooks[listed[i]].cloudId.Some?
      requires forall i, j :: 0 <= i < j < |listed| ==> listed[i] != listed[j]
      modifies this`hooks, this`cloud
      ensures (Abs(), ok) == DeleteEach(old(Abs()), listed, providerOk, deleteOk)
    {
      ghost var all := DeleteEach(Abs(), listed, providerOk, deleteOk);
      assert listed[0..] == listed;
      for n := 0 to |listed|
        invariant forall i :: n <= i < |listed| ==> listed[i] in hooks && hooks[listed[i]].cloudId.Some?
        invariant DeleteEach(Abs(), listed[n..], providerOk, deleteOk) == all
      {
        var id := listed[n];
        assert listed[n..][0] == id && listed[n..][1..] == listed[n + 1..];
        var h := hooks[id];
        hooks := hooks - {id};
        if !providerOk(id) {
          return false;
        }
        if deleteOk(id) {
          cloud := cloud - {AddressOf(h, h.cloudId.value)};
        }
      }
      return true;
    }

    method Disconnect(r: ResourceId, listed: seq<HookId>, providerOk: HookId -> bool, deleteOk: HookId -> bool) returns (ok: bool)
      requires Inv(Abs().db) && ListsHooks(listed, Unreferenced(WithoutConnection(Abs().db, r)))
      modifies this
      ensures (Abs(), ok) == Connections.Disconnect(old(Abs()), r, listed, providerOk, deleteOk)
      ensures Inv(Abs().db)
    {
      DisconnectKeepsInv(Abs(), r, listed, providerOk, deleteOk);
      if !Connectable(r) || r !in conns {
        return false;
      }
      var savedConns, savedHooks := conns, hooks;
      conns := conns - {r};
      ok := DeleteRepohooks(listed, providerOk, deleteOk);
      if !ok {
        conns, hooks := savedConns, savedHooks; // roll back
      }
    }
  }
}
