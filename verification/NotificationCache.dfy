/**
The notifier's cache (internal/notifications/cache.go): configurations by ID and one
reference-counted client per URL. `open` are the clients that have been made and not
closed; `misclosed` records closing a client that is not open.
 */
module NotificationCache {
  import opened Prelude
  import opened NotificationConfig

  type ConfigId = string
  type Url = string
  type ClientId = nat

  datatype ClientEntry = ClientEntry(count: int, client: ClientId)

  datatype Cache = Cache(
    clients: map<Url, ClientEntry>,
    configs: map<ConfigId, Config>,
    open: set<ClientId>,
    made: nat,
    misclosed: bool)

  datatype Error = AlreadyAdded | ConfigNotFound | ClientNotFound | FactoryFailed

  function Empty(): Cache { Cache(map[], map[], {}, 0, false) }

  /** `factory` says whether a client could be made, should one be needed. */
  function Add(c: Cache, id: ConfigId, cfg: Config, factory: bool): (Cache, Option<Error>)
    requires WellFormed(cfg)
  {
    if cfg.destination == EMAIL then (c, None)
    else if id in c.configs then (c, Some(AlreadyAdded))
    else
      var url := cfg.url.value;
      if url in c.clients then
        var ent := c.clients[url];
        (c.(clients := c.clients[url := ent.(count := ent.count + 1)], configs := c.configs[id := cfg]), None)
      else if !factory then (c, Some(FactoryFailed))
      else
        (c.(clients := c.clients[url := ClientEntry(1, c.made)], configs := c.configs[id := cfg],
            open := c.open + {c.made}, made := c.made + 1), None)
  }

  function Remove(c: Cache, id: ConfigId): (Cache, Option<Error>)
    requires forall k :: k in c.configs ==> c.configs[k].url.Some?
  {
    if id !in c.configs then (c, Some(ConfigNotFound))
    else
      var url := c.configs[id].url.value;
      if url !in c.clients then (c, Some(ClientNotFound))
      else
        var ent := c.clients[url].(count := c.clients[url].count - 1);
        var c' := c.(configs := c.configs - {id});
        if ent.count == 0 then
          (c'.(clients := c.clients - {url}, open := c.open - {ent.client},
               misclosed := c.misclosed || ent.client !in c.open), None)
        else (c'.(clients := c.clients[url := ent]), None)
  }

  /** The configurations that use a URL. */
  function Users(configs: map<ConfigId, Config>, url: Url): set<ConfigId> {
    set id | id in configs && configs[id].url == Some(url)
  }

  /** The cache holds no email configuration, so each one has a URL. */
  ghost predicate ConfigsOk(c: Cache) {
    forall id :: id in c.configs ==> NotEmail(c.configs[id]) && c.configs[id].url.Some?
  }

  ghost predicate CountOk(c: Cache, url: Url) {
    if url in c.clients
    then c.clients[url].count == |Users(c.configs, url)| && Users(c.configs, url) != {}
    else Users(c.configs, url) == {}
  }

  /** A URL has a client exactly when some configuration uses it; its count says how many. */
  ghost predicate CountsOk(c: Cache) {
    forall url :: CountOk(c, url)
  }

  /** The open clients are exactly those kept, one per URL. */
  ghost predicate ClientsOk(clients: map<Url, ClientEntry>, open: set<ClientId>, made: nat) {
    && (forall url :: url in clients ==> clients[url].client in open && clients[url].client < made)
    && (forall a, b :: a in clients && b in clients && a != b ==> clients[a].client != clients[b].client)
    && (forall k :: k in open ==> exists url :: url in clients && clients[url].client == k)
  }

  ghost predicate CacheInv(c: Cache) {
    !c.misclosed && ConfigsOk(c) && CountsOk(c) && ClientsOk(c.clients, c.open, c.made)
  }

  lemma UsersAfterPut(configs: map<ConfigId, Config>, id: ConfigId, cfg: Config, url: Url)
    requires id !in configs
    ensures Users(configs[id := cfg], url) == Users(configs, url) + if cfg.url == Some(url) then {id} else {}
  {
  }

  lemma UsersAfterRemove(configs: map<ConfigId, Config>, id: ConfigId, url: Url)
    ensures Users(configs - {id}, url) == Users(configs, url) - {id}
  {
  }

  lemma AddKeepsCounts(c: Cache, id: ConfigId, cfg: Config, factory: bool)
    requires CountsOk(c) && WellFormed(cfg)
    ensures CountsOk(Add(c, id, cfg, factory).0)
  {
    var c' := Add(c, id, cfg, factory).0;
    forall url ensures CountOk(c', url) {
      assert CountOk(c, url);
      if id !in c.configs { UsersAfterPut(c.configs, id, cfg, url); }
    }
  }

  /** Changing a count does not matter to the clients. */
  lemma RecountKeepsClients(clients: map<Url, ClientEntry>, open: set<ClientId>, made: nat, url: Url, n: int)
    requires ClientsOk(clients, open, made) && url in clients
    ensures ClientsOk(clients[url := clients[url].(count := n)], open, made)
  {
    var clients' := clients[url := clients[url].(count := n)];
    forall k | k in open ensures exists u :: u in clients' && clients'[u].client == k {
      var u :| u in clients && clients[u].client == k;
      assert u in clients' && clients'[u].client == k;
    }
  }

  lemma NewKeepsClients(clients: map<Url, ClientEntry>, open: set<ClientId>, made: nat, url: Url)
    requires ClientsOk(clients, open, made) && url !in clients
    ensures ClientsOk(clients[url := ClientEntry(1, made)], open + {made}, made + 1)
  {
    var clients' := clients[url := ClientEntry(1, made)];
    forall k | k in open + {made} ensures exists u :: u in clients' && clients'[u].client == k {
      if k in open {
        var u :| u in clients && clients[u].client == k;
        assert u in clients' && clients'[u].client == k;
      } else {
        assert clients'[url].client == k;
      }
    }
  }

  lemma CloseKeepsClients(clients: map<Url, ClientEntry>, open: set<ClientId>, made: nat, url: Url)
    requires ClientsOk(clients, open, made) && url in clients
    ensures clients[url].client in open
    ensures ClientsOk(clients - {url}, open - {clients[url].client}, made)
  {
    var clients' := clients - {url};
    forall k | k in open - {clients[url].client} ensures exists u :: u in clients' && clients'[u].client == k {
      var u :| u in clients && clients[u].client == k;
      assert u in clients' && clients'[u].client == k;
    }
  }

  lemma AddKeepsInv(c: Cache, id: ConfigId, cfg: Config, factory: bool)
    requires CacheInv(c) && WellFormed(cfg)
    ensures CacheInv(Add(c, id, cfg, factory).0)
  {
    AddKeepsCounts(c, id, cfg, factory);
    if cfg.destination != EMAIL && id !in c.configs {
      var url := cfg.url.value;
      if url in c.clients {
        RecountKeepsClients(c.clients, c.open, c.made, url, c.clients[url].count + 1);
      } else {
        NewKeepsClients(c.clients, c.open, c.made, url);
      }
    }
  }

  lemma RemoveKeepsCounts(c: Cache, id: ConfigId)
    requires ConfigsOk(c) && CountsOk(c)
    ensures CountsOk(Remove(c, id).0)
    ensures Remove(c, id).1 != Some(ClientNotFound)
  {
    if id in c.configs {
      var url0 := c.configs[id].url.value;
      assert id in Users(c.configs, url0);
      assert CountOk(c, url0);
      var c' := Remove(c, id).0;
      forall url ensures CountOk(c', url) {
        assert CountOk(c, url);
        UsersAfterRemove(c.configs, id, url);
        if url == url0 {
          assert |Users(c'.configs, url)| == |Users(c.configs, url)| - 1;
        } else {
          assert Users(c'.configs, url) == Users(c.configs, url);
        }
      }
    }
  }

  /** No client is closed twice, and the branch that finds no client is unreachable. */
  lemma RemoveKeepsInv(c: Cache, id: ConfigId)
    requires CacheInv(c)
    ensures CacheInv(Remove(c, id).0)
    ensures Remove(c, id).1 == if id in c.configs then None else Some(ConfigNotFound)
    ensures id in c.configs ==> var url := c.configs[id].url.value; url in c.clients && c.clients[url].client in c.open
  {
    RemoveKeepsCounts(c, id);
    if id in c.configs {
      var url := c.configs[id].url.value;
      CloseKeepsClients(c.clients, c.open, c.made, url);
      RecountKeepsClients(c.clients, c.open, c.made, url, c.clients[url].count - 1);
    }
  }

  class NotifierCache {
    var clients: map<Url, ClientEntry>
    var configs: map<ConfigId, Config>
    var open: set<ClientId>
    var made: nat

    ghost function Abs(): Cache
      reads this
    {
      Cache(clients, configs, open, made, false)
    }

    ghost predicate Valid()
      reads this
    {
      CacheInv(Abs())
    }

    constructor ()
      ensures Valid() && Abs() == Empty()
    {
      clients, configs, open, made := map[], map[], {}, 0;
    }

    method NewClient(factory: bool) returns (client: Option<ClientId>)
      modifies this`open, this`made
      ensures client == if factory then Some(old(made)) else None
      ensures open == if factory then old(open) + {old(made)} else old(open)
      ensures made == if factory then old(made) + 1 else old(made)
    {
      if !factory {
        return None;
      }
      client, open, made := Some(made), open + {made}, made + 1;
    }

    /** A client may be closed only while it is open. */
    method CloseClient(client: ClientId)
      requires client in open
      modifies this`open
      ensures open == old(open) - {client}
    {
      open := open - {client};
    }

    method AddConfig(id: ConfigId, cfg: Config, factory: bool) returns (err: Option<Error>)
      requires Valid() && WellFormed(cfg)
      modifies this
      ensures Valid() && (Abs(), err) == Add(old(Abs()), id, cfg, factory)
    {
      AddKeepsInv(Abs(), id, cfg, factory);
      err := AddUnlocked(id, cfg, factory);
    }

    method AddUnlocked(id: ConfigId, cfg: Config, factory: bool) returns (err: Option<Error>)
      requires WellFormed(cfg)
      modifies this
      ensures (Abs(), err) == Add(old(Abs()), id, cfg, factory)
    {
      if cfg.destination == EMAIL {
        return None;
      }
      if id in configs {
        return Some(AlreadyAdded);
      }
      var url := cfg.url.value;
      if url in clients {
        var ent := clients[url];
        clients := clients[url := ent.(count := ent.count + 1)];
        configs := configs[id := cfg];
        return None;
      }
      var client := NewClient(factory);
      if client == None {
        return Some(FactoryFailed);
      }
      clients := clients[url := ClientEntry(1, client.value)];
      configs := configs[id := cfg];
      return None;
    }

    /** The branch that finds no client is never taken. */
    method RemoveConfig(id: ConfigId) returns (err: Option<Error>)
      requires Valid()
      modifies this
      ensures Valid() && (Abs(), err) == Remove(old(Abs()), id)
      ensures err == if id in old(configs) then None else Some(ConfigNotFound)
    {
      RemoveKeepsInv(Abs(), id);
      err := RemoveUnlocked(id);
    }

    method RemoveUnlocked(id: ConfigId) returns (err: Option<Error>)
      requires forall k :: k in configs ==> configs[k].url.Some?
      requires id in configs ==> var url := configs[id].url.value; url in clients ==> clients[url].client in open
      modifies this
      ensures (Abs(), err) == Remove(old(Abs()), id)
    {
      if id !in configs {
        return Some(ConfigNotFound);
      }
      var url := configs[id].url.value;
      if url !in clients {
        return Some(ClientNotFound);
      }
      Release(url);
      configs := configs - {id};
      return None;
    }

    /** One configuration fewer uses the URL; with the last one its client goes. */
    method Release(url: Url)
      requires url in clients && clients[url].client in open
      modifies this`clients, this`open
      ensures var ent := old(clients)[url].(count := old(clients)[url].count - 1);
              if ent.count == 0 then clients == old(clients) - {url} && open == old(open) - {ent.client}
              else clients == old(clients)[url := ent] && open == old(open)
    {
      var ent := clients[url].(count := clients[url].count - 1);
      if ent.count == 0 {
        CloseClient(ent.client);
        clients := clients - {url};
      } else {
        clients := clients[url := ent];
      }
    }
  }
}
