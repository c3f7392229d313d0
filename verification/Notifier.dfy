/** The notifier (internal/notifications/notifier.go): it subscribes to configuration
    events, fills its cache from a listing, then applies the events; run events are
    published to the interested configurations. */
module Notifier {
  import opened Prelude
  import opened Broker
  import opened SnapshotReplay
  import opened NotificationConfig
  import opened NotificationCache
  import opened RunStatus
  import opened ConfigHistory
  import LiveView

  /** handleConfigEvent. An update whose removal fails does not go on to add. */
  function Handle(c: Cache, e: ConfigChange, factory: bool): (Cache, Option<Error>)
    requires ConfigsOk(c) && WellFormed(e.payload.value)
  {
    var Row(id, cfg) := e.payload;
    match e.kind
    case Created => Add(c, id, cfg, factory)
    case Updated =>
      var (c', err) := Remove(c, id);
      if err.Some? then (c', err) else Add(c', id, cfg, factory)
    case Deleted => Remove(c, id)
  }

  lemma HandleKeepsInv(c: Cache, e: ConfigChange, factory: bool)
    requires CacheInv(c) && WellFormed(e.payload.value)
    ensures CacheInv(Handle(c, e, factory).0)
    ensures Handle(c, e, factory).1 != Some(ClientNotFound)
  {
    RemoveKeepsInv(c, e.payload.key);
    if e.kind != Deleted {
      AddKeepsInv(c, e.payload.key, e.payload.value, factory);
      AddKeepsInv(Remove(c, e.payload.key).0, e.payload.key, e.payload.value, factory);
    }
  }

  /** What is an error: adding a configuration that is there, or for whose URL there is no
      client and none can be made; updating or deleting one that is not there. */
  lemma HandleErrors(c: Cache, e: ConfigChange, factory: bool)
    requires CacheInv(c) && WellFormed(e.payload.value)
    ensures var id, cfg, err := e.payload.key, e.payload.value, Handle(c, e, factory).1;
            var unmade := NotEmail(cfg) && !factory && Users(c.configs - {id}, cfg.url.value) == {};
            && (e.kind == Created ==>
                  err == if NotEmail(cfg) && id in c.configs then Some(AlreadyAdded) else if unmade then Some(FactoryFailed) else None)
            && (e.kind == Updated ==>
                  err == if id !in c.configs then Some(ConfigNotFound) else if unmade then Some(FactoryFailed) else None)
            && (e.kind == Deleted ==> err == if id !in c.configs then Some(ConfigNotFound) else None)
  {
    var id, cfg := e.payload.key, e.payload.value;
    RemoveTakesOut(c, id);
    RemoveKeepsInv(c, id);
    if e.kind != Deleted && NotEmail(cfg) {
      var c' := if e.kind == Updated then Remove(c, id).0 else c;
      assert CountOk(c', cfg.url.value);
      if id !in c.configs { assert c.configs - {id} == c.configs; }
    }
  }

  /** The configurations after an event, clients aside. */
  function Follow(m: map<ConfigId, Config>, e: ConfigChange): map<ConfigId, Config> {
    var Row(id, cfg) := e.payload;
    match e.kind
    case Created => if cfg.destination == EMAIL || id in m then m else m[id := cfg]
    case Updated =>
      if id !in m then m
      else if cfg.destination == EMAIL then m - {id}
      else m[id := cfg]
    case Deleted => m - {id}
  }

  /** The three conditions hold although repeated creations, and updates and deletions of
      missing configurations, are errors. */
  lemma FollowIsFaithful()
    ensures Faithful(Follow, NotEmail)
  {
    forall m, e ensures FaithfulAt(Follow, NotEmail, m, e) {}
  }

  /** While every needed client can be made, the cache's configurations follow the events. */
  lemma HandleFollows(c: Cache, e: ConfigChange)
    requires CacheInv(c) && WellFormed(e.payload.value)
    ensures Handle(c, e, true).0.configs == Follow(c.configs, e)
  {
    var m, id, cfg := c.configs, e.payload.key, e.payload.value;
    RemoveTakesOut(c, id);
    if e.kind != Deleted { AddPutsIn(c, id, cfg); }
    if e.kind == Updated && id in m {
      AddPutsIn(Remove(c, id).0, id, cfg);
      assert (m - {id})[id := cfg] == m[id := cfg];
    }
  }

  lemma RemoveTakesOut(c: Cache, id: ConfigId)
    requires CacheInv(c)
    ensures Remove(c, id).0.configs == c.configs - {id}
    ensures Remove(c, id).1 == if id in c.configs then None else Some(ConfigNotFound)
  {
    RemoveKeepsInv(c, id);
    if id !in c.configs { assert c.configs - {id} == c.configs; }
  }

  lemma AddPutsIn(c: Cache, id: ConfigId, cfg: Config)
    requires WellFormed(cfg)
    ensures Add(c, id, cfg, true).0.configs ==
            if cfg.destination == EMAIL || id in c.configs then c.configs else c.configs[id := cfg]
  {
  }

  /** newCache: add the listed configurations one by one; `factory` says for which of them a
      client can be made, should one be needed. */
  function FromRows(rows: seq<(ConfigId, Config)>, factory: ConfigId -> bool): (Cache, Option<Error>)
    requires forall i :: 0 <= i < |rows| ==> WellFormed(rows[i].1)
  {
    if rows == [] then (Empty(), None)
    else
      var (c, err) := FromRows(rows[..|rows| - 1], factory);
      var (id, cfg) := rows[|rows| - 1];
      if err.Some? then (c, err) else Add(c, id, cfg, factory(id))
  }

  lemma EmptyInv()
    ensures CacheInv(Empty())
  {
    forall url ensures CountOk(Empty(), url) {}
  }

  /** Row n is the first listed with its URL. */
  ghost predicate FirstUser(rows: seq<(ConfigId, Config)>, n: nat)
    requires n < |rows|
  {
    NotEmail(rows[n].1) && forall i :: 0 <= i < n && NotEmail(rows[i].1) ==> rows[i].1.url != rows[n].1.url
  }

  ghost predicate ClientsAvailable(rows: seq<(ConfigId, Config)>, factory: ConfigId -> bool) {
    forall n :: 0 <= n < |rows| && FirstUser(rows, n) ==> factory(rows[n].0)
  }

  /** A URL has a client in the cache exactly when a listed configuration uses it. */
  lemma ClientIffListed(c: Cache, rows: seq<(ConfigId, Config)>, url: Url)
    requires CacheInv(c) && Holds(NotEmail, c.configs, rows)
    ensures url in c.clients <==> exists i :: 0 <= i < |rows| && NotEmail(rows[i].1) && rows[i].1.url == Some(url)
  {
    assert CountOk(c, url);
    if url in c.clients {
      var id :| id in Users(c.configs, url);
      var i :| 0 <= i < |rows| && rows[i].0 == id;
      assert Entry(c.configs, rows[i].0) == Some(rows[i].1);
    }
    if i :| 0 <= i < |rows| && NotEmail(rows[i].1) && rows[i].1.url == Some(url) {
      assert Entry(c.configs, rows[i].0) == Some(rows[i].1);
      assert rows[i].0 in Users(c.configs, url);
    }
  }

  lemma AddRow(c: Cache, rows: seq<(ConfigId, Config)>, n: nat, factory: bool)
    requires n == |rows| - 1 && CacheInv(c) && Holds(NotEmail, c.configs, rows[..n])
    requires WellFormed(rows[n].1) && forall i :: 0 <= i < n ==> rows[i].0 != rows[n].0
    ensures var (c', err) := Add(c, rows[n].0, rows[n].1, factory);
            && CacheInv(c')
            && err == (if FirstUser(rows, n) && !factory then Some(FactoryFailed) else None)
            && (err == None ==> Holds(NotEmail, c'.configs, rows))
  {
    HoldsOneMore(NotEmail, c.configs, rows, n);
    AddKeepsInv(c, rows[n].0, rows[n].1, factory);
    if NotEmail(rows[n].1) {
      var url := rows[n].1.url.value;
      ClientIffListed(c, rows[..n], url);
      assert FirstUser(rows, n) <==> url !in c.clients;
    }
  }

  lemma AvailableOneMore(rows: seq<(ConfigId, Config)>, n: nat, factory: ConfigId -> bool)
    requires n == |rows| - 1
    ensures ClientsAvailable(rows, factory) <==> ClientsAvailable(rows[..n], factory) && (FirstUser(rows, n) ==> factory(rows[n].0))
  {
    var init := rows[..n];
    forall i | 0 <= i < n ensures FirstUser(init, i) == FirstUser(rows, i) && init[i] == rows[i] {}
    if ClientsAvailable(rows, factory) {
      forall i | 0 <= i < n && FirstUser(init, i) ensures factory(init[i].0) { assert FirstUser(rows, i); }
    }
  }

  /** A listing fills the cache exactly when a client can be made for the first user of each
      URL; the cache then holds what is listed, email configurations aside. */
  lemma {:induction false} FromRowsAdds(rows: seq<(ConfigId, Config)>, factory: ConfigId -> bool)
    requires forall i :: 0 <= i < |rows| ==> WellFormed(rows[i].1)
    requires forall i, j :: 0 <= i < j < |rows| ==> rows[i].0 != rows[j].0
    ensures CacheInv(FromRows(rows, factory).0)
    ensures FromRows(rows, factory).1 == if ClientsAvailable(rows, factory) then None else Some(FactoryFailed)
    ensures ClientsAvailable(rows, factory) ==> Holds(NotEmail, FromRows(rows, factory).0.configs, rows)
  {
    if rows == [] {
      EmptyInv();
    } else {
      var n := |rows| - 1;
      FromRowsAdds(rows[..n], factory);
      AvailableOneMore(rows, n, factory);
      if ClientsAvailable(rows[..n], factory) {
        AddRow(FromRows(rows[..n], factory).0, rows, n, factory(rows[n].0));
      }
    }
  }

  lemma FromRowsHoldsTable(rows: seq<(ConfigId, Config)>, table: map<ConfigId, Config>, factory: ConfigId -> bool)
    requires Lists(rows, table) && forall id :: id in table ==> WellFormed(table[id])
    ensures (forall i :: 0 <= i < |rows| ==> WellFormed(rows[i].1))
    ensures CacheInv(FromRows(rows, factory).0)
    ensures FromRows(rows, factory).1 == if ClientsAvailable(rows, factory) then None else Some(FactoryFailed)
    ensures ClientsAvailable(rows, factory) ==> FromRows(rows, factory).0.configs == Visible(NotEmail, table)
  {
    forall i | 0 <= i < |rows| ensures WellFormed(rows[i].1) { assert table[rows[i].0] == rows[i].1; }
    FromRowsAdds(rows, factory);
    if ClientsAvailable(rows, factory) { HoldsTheTable(NotEmail, FromRows(rows, factory).0.configs, rows, table); }
  }

  /** Handling a stream; an event that fails is logged and skipped. */
  function HandleAll(c: Cache, es: seq<ConfigChange>): (r: Cache)
    requires CacheInv(c) && forall i :: 0 <= i < |es| ==> WellFormed(es[i].payload.value)
    ensures CacheInv(r)
  {
    if es == [] then c
    else
      var c' := HandleAll(c, es[..|es| - 1]);
      HandleKeepsInv(c', es[|es| - 1], true);
      Handle(c', es[|es| - 1], true).0
  }

  lemma {:induction false} HandleAllFollows(c: Cache, es: seq<ConfigChange>)
    requires CacheInv(c) && forall i :: 0 <= i < |es| ==> WellFormed(es[i].payload.value)
    ensures HandleAll(c, es).configs == Replay(Follow, c.configs, es)
  {
    if es != [] {
      HandleAllFollows(c, es[..|es| - 1]);
      HandleFollows(HandleAll(c, es[..|es| - 1]), es[|es| - 1]);
    }
  }

  lemma {:induction false} TableWellFormed(hist: seq<ConfigChange>)
    requires forall i :: 0 <= i < |hist| ==> WellFormed(hist[i].payload.value)
    ensures forall id :: id in Table(hist) ==> WellFormed(Table(hist)[id])
  {
    if hist != [] { TableWellFormed(hist[..|hist| - 1]); }
  }

  lemma FollowConverges(hist: seq<ConfigChange>, i: nat, j: nat, k: nat)
    requires LegalHistory(NotEmail, hist) && i <= j <= k <= |hist|
    ensures Replay(Follow, Visible(NotEmail, Table(hist[..j])), hist[i..k]) == Visible(NotEmail, Table(hist[..k]))
  {
    FollowIsFaithful();
    SnapshotThenReplay(Follow, NotEmail, hist, i, j, k);
  }

  lemma ListingOfHistory(parses: string -> bool, requests: seq<Request>, j: nat, rows: seq<(ConfigId, Config)>, factory: ConfigId -> bool)
    requires j <= |History(parses, requests)| && Lists(rows, Table(History(parses, requests)[..j]))
    ensures LegalHistory(NotEmail, History(parses, requests)) && WellFormedHistory(History(parses, requests))
    ensures forall i :: 0 <= i < |rows| ==> WellFormed(rows[i].1)
    ensures CacheInv(FromRows(rows, factory).0)
    ensures FromRows(rows, factory).1 == if ClientsAvailable(rows, factory) then None else Some(FactoryFailed)
    ensures ClientsAvailable(rows, factory) ==>
              FromRows(rows, factory).0.configs == Visible(NotEmail, Table(History(parses, requests)[..j]))
  {
    HistoryIsSound(parses, requests);
    TableWellFormed(History(parses, requests)[..j]);
    FromRowsHoldsTable(rows, Table(History(parses, requests)[..j]), factory);
  }

  /* ---------- Main results ---------- */

  /** A cache that has been through any events at all, legal or not, with the client
      factory succeeding or failing each time. */
  function Reached(start: Cache, ops: seq<(ConfigChange, bool)>): (c: Cache)
    requires CacheInv(start) && forall i :: 0 <= i < |ops| ==> WellFormed(ops[i].0.payload.value)
    ensures CacheInv(c)
  {
    if ops == [] then start
    else
      var c := Reached(start, ops[..|ops| - 1]);
      var (e, factory) := ops[|ops| - 1];
      HandleKeepsInv(c, e, factory);
      Handle(c, e, factory).0
  }

  /** In every cache that is filled from a listing of the table at any time and then meets
      events of its history, in whatever order and however often they come and whether or not
      clients can be made: a URL has an open client of its own exactly when some cached
      configuration uses it, the count says how many do, nothing else is open, no client was
      ever closed twice, and the next removal will find its client. */
  lemma CacheSafety(parses: string -> bool, requests: seq<Request>, j: nat, rows: seq<(ConfigId, Config)>, factory: ConfigId -> bool,
                    ops: seq<(ConfigChange, bool)>, url: Url, id: ConfigId)
    requires j <= |History(parses, requests)| && Lists(rows, Table(History(parses, requests)[..j]))
    requires forall i :: 0 <= i < |ops| ==> ops[i].0 in History(parses, requests)
    ensures forall i :: 0 <= i < |rows| ==> WellFormed(rows[i].1)
    ensures forall i :: 0 <= i < |ops| ==> WellFormed(ops[i].0.payload.value)
    ensures CacheInv(FromRows(rows, factory).0)
    ensures var c := Reached(FromRows(rows, factory).0, ops);
            && !c.misclosed
            && (url in c.clients <==> Users(c.configs, url) != {})
            && (url in c.clients ==> c.clients[url].count == |Users(c.configs, url)| && c.clients[url].client in c.open)
            && (forall a, b :: a in c.clients && b in c.clients && a != b ==> c.clients[a].client != c.clients[b].client)
            && (forall k :: k in c.open ==> exists u :: u in c.clients && c.clients[u].client == k)
            && Remove(c, id).1 == if id in c.configs then None else Some(ConfigNotFound)
  {
    ListingOfHistory(parses, requests, j, rows, factory);
    InvIsSafe(Reached(FromRows(rows, factory).0, ops), url, id);
  }

  lemma InvIsSafe(c: Cache, url: Url, id: ConfigId)
    requires CacheInv(c)
    ensures !c.misclosed
    ensures url in c.clients <==> Users(c.configs, url) != {}
    ensures url in c.clients ==> c.clients[url].count == |Users(c.configs, url)| && c.clients[url].client in c.open
    ensures forall a, b :: a in c.clients && b in c.clients && a != b ==> c.clients[a].client != c.clients[b].client
    ensures forall k :: k in c.open ==> exists u :: u in c.clients && c.clients[u].client == k
    ensures Remove(c, id).1 == if id in c.configs then None else Some(ConfigNotFound)
  {
    assert CountOk(c, url);
    RemoveKeepsInv(c, id);
  }

  /** From any listing of the configurations at j and the events from i <= j to k >= j, the
      notifier ends with exactly the table's non-email configurations at k, one open
      client per URL in use and the right count for each. */
  lemma NotifierConverges(parses: string -> bool, requests: seq<Request>, i: nat, j: nat, k: nat, rows: seq<(ConfigId, Config)>,
                          factory: ConfigId -> bool)
    requires i <= j <= k <= |History(parses, requests)|
    requires Lists(rows, Table(History(parses, requests)[..j])) && ClientsAvailable(rows, factory)
    ensures WellFormedHistory(History(parses, requests)) && forall n :: 0 <= n < |rows| ==> WellFormed(rows[n].1)
    ensures FromRows(rows, factory).1 == None && CacheInv(FromRows(rows, factory).0)
    ensures var hist := History(parses, requests);
            HandleAll(FromRows(rows, factory).0, hist[i..k]).configs == Visible(NotEmail, Table(hist[..k]))
    ensures CacheInv(HandleAll(FromRows(rows, factory).0, History(parses, requests)[i..k]))
  {
    var hist := History(parses, requests);
    ListingOfHistory(parses, requests, j, rows, factory);
    HandleAllFollows(FromRows(rows, factory).0, hist[i..k]);
    FollowConverges(hist, i, j, k);
  }

  /** In every reachable state of the system of table, listener, broker and notifier, the
      cache holds what the notifier's view says. */
  lemma CacheHoldsTheView(parses: string -> bool, requests: seq<Request>, cap: nat, actions: seq<LiveView.Action<ConfigId, Config>>,
                          rows: seq<(ConfigId, Config)>, factory: ConfigId -> bool, n: nat)
    requires var s := LiveView.Run(cap, Follow, NotEmail, actions);
             && LiveView.HasRead(s, n) && s.consumer.at <= n && s.hist == History(parses, requests)
             && Lists(rows, Table(s.hist[..s.consumer.at])) && ClientsAvailable(rows, factory)
    ensures forall n :: 0 <= n < |rows| ==> WellFormed(rows[n].1)
    ensures FromRows(rows, factory).1 == None && CacheInv(FromRows(rows, factory).0)
    ensures var s := LiveView.Run(cap, Follow, NotEmail, actions);
            var es := s.broker.chans[s.consumer.ch].received;
            && (forall n :: 0 <= n < |es| ==> WellFormed(es[n].payload.value))
            && HandleAll(FromRows(rows, factory).0, es).configs == s.consumer.view
  {
    LiveView.ReceivedIsRelayed(cap, Follow, NotEmail, actions, n);
    var s := LiveView.Run(cap, Follow, NotEmail, actions);
    ListingOfHistory(parses, requests, s.consumer.at, rows, factory);
    KeptMembers(s.hist, Elements(s.relayed), s.consumer.from, n);
    HandleAllFollows(FromRows(rows, factory).0, s.broker.chans[s.consumer.ch].received);
  }

  /** And that is the table if no change since the subscription was missed. */
  lemma NotifierFollowsTheTable(parses: string -> bool, requests: seq<Request>, cap: nat, actions: seq<LiveView.Action<ConfigId, Config>>,
                                rows: seq<(ConfigId, Config)>, factory: ConfigId -> bool, n: nat)
    requires var s := LiveView.Run(cap, Follow, NotEmail, actions);
             && LiveView.HasRead(s, n) && s.consumer.at <= n && s.hist == History(parses, requests)
             && Lists(rows, Table(s.hist[..s.consumer.at])) && ClientsAvailable(rows, factory)
             && AllRelayed(Elements(s.relayed), s.consumer.from, n)
    ensures forall n :: 0 <= n < |rows| ==> WellFormed(rows[n].1)
    ensures FromRows(rows, factory).1 == None && CacheInv(FromRows(rows, factory).0)
    ensures var s := LiveView.Run(cap, Follow, NotEmail, actions);
            var es := s.broker.chans[s.consumer.ch].received;
            && (forall n :: 0 <= n < |es| ==> WellFormed(es[n].payload.value))
            && HandleAll(FromRows(rows, factory).0, es).configs == Visible(NotEmail, Table(s.hist[..n]))
  {
    CacheHoldsTheView(parses, requests, cap, actions, rows, factory, n);
    FollowIsFaithful();
    LiveView.ConvergedUnlessMissed(cap, Follow, NotEmail, actions, n);
  }

  /* ---------- Missed changes ---------- */

  /** What an event does to the configuration that it is about. */
  function Followed(before: Option<Config>, e: ConfigChange): Option<Config> {
    match e.kind
    case Created => if before.Some? || !NotEmail(e.payload.value) then before else Some(e.payload.value)
    case Updated => if before.None? then None else if NotEmail(e.payload.value) then Some(e.payload.value) else None
    case Deleted => None
  }

  lemma FollowIsRowLocal()
    ensures RowLocal(Follow, Followed)
  {
  }

  /** With misses, the notifier's configurations are the table's exactly when each one with a
      missed change comes to the same by its relayed changes alone. */
  lemma ConfigsRightIff(cap: nat, actions: seq<LiveView.Action<ConfigId, Config>>, n: nat)
    requires var s := LiveView.Run(cap, Follow, NotEmail, actions);
             LiveView.HasRead(s, n) && s.consumer.from <= s.consumer.at <= n
    ensures var s := LiveView.Run(cap, Follow, NotEmail, actions);
            s.consumer.view == Visible(NotEmail, Table(s.hist[..n]))
            <==> MissedRowsAgree(Followed, NotEmail, s.hist, Elements(s.relayed), s.consumer.from, s.consumer.at, n)
  {
    FollowIsFaithful();
    FollowIsRowLocal();
    LiveView.ConvergedIff(cap, Follow, Followed, NotEmail, actions, n);
  }

  lemma {:induction false} UpdatesDoNotCreate(es: seq<ConfigChange>, id: ConfigId)
    requires forall i :: 0 <= i < |es| && es[i].payload.key == id ==> es[i].kind != Created
    ensures RowReplay(Followed, None, es, id) == None
  {
    if es != [] { UpdatesDoNotCreate(es[..|es| - 1], id); }
  }

  /** In particular a configuration that was not in the snapshot, and whose creation was not
      relayed, stays unknown to the notifier whatever updates of it are relayed. */
  lemma MissedCreationStaysMissed(cap: nat, actions: seq<LiveView.Action<ConfigId, Config>>, n: nat, id: ConfigId)
    requires var s := LiveView.Run(cap, Follow, NotEmail, actions);
             && LiveView.HasRead(s, n) && s.consumer.at <= |s.hist|
             && id !in Table(s.hist[..s.consumer.at])
             && var es := s.broker.chans[s.consumer.ch].received;
                forall i :: 0 <= i < |es| && es[i].payload.key == id ==> es[i].kind != Created
    ensures id !in LiveView.Run(cap, Follow, NotEmail, actions).consumer.view
  {
    LiveView.ReceivedIsRelayed(cap, Follow, NotEmail, actions, n);
    var s := LiveView.Run(cap, Follow, NotEmail, actions);
    var es := s.broker.chans[s.consumer.ch].received;
    FollowIsRowLocal();
    ReplayByRow(Follow, Followed, Visible(NotEmail, Table(s.hist[..s.consumer.at])), es, id);
    UpdatesDoNotCreate(es, id);
  }

  /** The event calls for a client that no other cached configuration already has. */
  predicate NeedsClient(c: Cache, e: ConfigChange) {
    && e.kind != Deleted && NotEmail(e.payload.value) && e.payload.value.url.Some?
    && Users(c.configs - {e.payload.key}, e.payload.value.url.value) == {}
  }

  /** When the client factory may fail, an up-to-date cache stays up to date exactly when
      the factory works or is not needed. */
  lemma UpToDateIffClientAvailable(db: map<ConfigId, Config>, c: Cache, e: ConfigChange, factory: bool)
    requires CacheInv(c) && WellFormed(e.payload.value)
    requires c.configs == Visible(NotEmail, db) && Legal(NotEmail, db, e)
    ensures Handle(c, e, factory).0.configs == Visible(NotEmail, ApplyChange(db, e)) <==> factory || !NeedsClient(c, e)
  {
    var m, id, cfg := c.configs, e.payload.key, e.payload.value;
    FollowIsFaithful();
    assert FaithfulAt(Follow, NotEmail, m, e);
    assert Follow(m, e) == Visible(NotEmail, ApplyChange(db, e)) by {
      forall k ensures Entry(Follow(m, e), k) == Entry(Visible(NotEmail, ApplyChange(db, e)), k) {
        StepStaysBetween(Follow, NotEmail, db, e, m, Visible(NotEmail, ApplyChange(db, e)), k);
      }
      SameEntries(Follow(m, e), Visible(NotEmail, ApplyChange(db, e)));
    }
    HandleFollows(c, e);
    if !factory && e.kind != Deleted && NotEmail(cfg) {
      RemoveKeepsInv(c, id);
      var c' := if e.kind == Updated then Remove(c, id).0 else c;
      assert CacheInv(c');
      assert c'.configs == m - {id};
      assert CountOk(c', cfg.url.value);
    }
  }

  /** What is published: to which configuration, through which client, and as what. */
  datatype Notification = Notification(config: ConfigId, client: ClientId, trigger: string)

  datatype RunError = WorkspaceUnavailable | NoClient | PublishFailed

  /** newCache: add each listed configuration, giving up at the first error. */
  method NewCache(rows: seq<(ConfigId, Config)>, factory: ConfigId -> bool) returns (cache: NotifierCache, err: Option<Error>)
    requires forall i :: 0 <= i < |rows| ==> WellFormed(rows[i].1)
    ensures fresh(cache) && cache.Valid() && (cache.Abs(), err) == FromRows(rows, factory)
  {
    cache := new NotifierCache();
    err := None;
    for i := 0 to |rows|
      invariant fresh(cache) && cache.Valid() && err == None && (cache.Abs(), err) == FromRows(rows[..i], factory)
    {
      assert rows[..i + 1][..i] == rows[..i];
      err := cache.AddConfig(rows[i].0, rows[i].1, factory(rows[i].0));
      if err.Some? {
        FailedRows(rows, factory, i + 1);
        return;
      }
    }
    assert rows[..|rows|] == rows;
  }

  lemma {:induction false} FailedRows(rows: seq<(ConfigId, Config)>, factory: ConfigId -> bool, n: nat)
    requires forall i :: 0 <= i < |rows| ==> WellFormed(rows[i].1)
    requires n <= |rows| && FromRows(rows[..n], factory).1.Some?
    ensures FromRows(rows, factory) == FromRows(rows[..n], factory)
    decreases |rows|
  {
    if n < |rows| {
      assert rows[..|rows| - 1][..n] == rows[..n];
      FailedRows(rows[..|rows| - 1], factory, n);
    } else {
      assert rows[..n] == rows;
    }
  }

  class EventHandler {
    const cache: NotifierCache

    constructor (cache: NotifierCache)
      ensures this.cache == cache
    {
      this.cache := cache;
    }

    method HandleConfigEvent(e: ConfigChange, factory: bool) returns (err: Option<Error>)
      requires cache.Valid() && WellFormed(e.payload.value)
      modifies cache
      ensures cache.Valid() && (cache.Abs(), err) == Handle(old(cache.Abs()), e, factory)
    {
      match e.kind
      case Created => err := cache.AddConfig(e.payload.key, e.payload.value, factory);
      case Updated =>
        err := cache.RemoveConfig(e.payload.key);
        if err == None {
          err := cache.AddConfig(e.payload.key, e.payload.value, factory);
        }
      case Deleted => err := cache.RemoveConfig(e.payload.key);
    }

    /** handleRunEvent: publishes once to every enabled configuration of the workspace that asks
        for the status, through the open client for its URL, in arbitrary order; it stops at the
        first failure of the workspace lookup or of a publication, and never for want of a client. */
    method HandleRunEvent(workspace: string, status: string, getWorkspace: bool, publishes: ConfigId -> bool)
      returns (published: seq<Notification>, err: Option<RunError>)
      requires cache.Valid()
      ensures err != Some(NoClient)
      ensures forall p :: p in published ==>
                && p.config in cache.configs
                && var c := cache.configs[p.config];
                   && c.workspace == workspace && c.enabled && AsksFor(c.triggers, status) && p.trigger in c.triggers
                   && (p.trigger == "run:created" <==> status == "pending")
                   && (p.trigger == "run:planning" <==> status == "planning")
                   && (p.trigger == "run:needs_attention" <==> status == "planned")
                   && (p.trigger == "run:applying" <==> status == "applying")
                   && (p.trigger == "run:errored" <==> status == "errored")
                   && c.url.Some? && c.url.value in cache.clients
                   && p.client == cache.clients[c.url.value].client && p.client in cache.open && publishes(p.config)
      ensures forall i, j :: 0 <= i < j < |published| ==> published[i].config != published[j].config
      ensures err == None ==>
                forall id :: id in cache.configs && cache.configs[id].workspace == workspace && cache.configs[id].enabled
                             && AsksFor(cache.configs[id].triggers, status) ==>
                  exists i :: 0 <= i < |published| && published[i].config == id
      ensures getWorkspace && (forall id :: id in cache.configs ==> publishes(id)) ==> err == None
      ensures err == Some(WorkspaceUnavailable) ==> !getWorkspace && published == []
      ensures err == Some(PublishFailed) ==>
                exists id :: id in cache.configs && Interested(cache.configs[id], workspace, status) && !publishes(id)
      ensures status == "plan_queued" || status == "apply_queued" ==> published == [] && err == None
    {
      forall c: Config ensures Interested(c, workspace, status) <==> c.workspace == workspace && c.enabled && AsksFor(c.triggers, status) {
        InterestedIff(c, workspace, status);
      }
      published := [];
      if Queued(status) {
        return published, None;
      }
      var todo := cache.configs.Keys;
      while todo != {}
        invariant todo <= cache.configs.Keys
        invariant forall p :: p in published ==>
                    && p.config in cache.configs && p.config !in todo && Interested(cache.configs[p.config], workspace, status)
                    && Some(p.trigger) == TriggerFor(status)
                    && cache.configs[p.config].url.Some? && cache.configs[p.config].url.value in cache.clients
                    && p.client == cache.clients[cache.configs[p.config].url.value].client && p.client in cache.open
                    && publishes(p.config)
        invariant published != [] ==> getWorkspace
        invariant forall i, j :: 0 <= i < j < |published| ==> published[i].config != published[j].config
        invariant forall id :: id in cache.configs && id !in todo && Interested(cache.configs[id], workspace, status) ==>
                    exists i :: 0 <= i < |published| && published[i].config == id
        decreases todo
      {
        var id :| id in todo;
        var cfg := cache.configs[id];
        if Interested(cfg, workspace, status) {
          if !getWorkspace {
            return published, Some(WorkspaceUnavailable);
          }
          var url := cfg.url.value;
          assert CountOk(cache.Abs(), url) && id in Users(cache.configs, url);
          if url !in cache.clients {
            return published, Some(NoClient); // never taken
          }
          if !publishes(id) {
            return published, Some(PublishFailed);
          }
          ghost var before := published;
          published := published + [Notification(id, cache.clients[url].client, TriggerFor(status).value)];
          assert published[|before|].config == id;
          assert forall i :: 0 <= i < |before| ==> published[i] == before[i];
        }
        todo := todo - {id};
      }
      return published, None;
    }
  }
}
