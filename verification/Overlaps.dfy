/** What becomes of the tables when a disconnection overlaps with another transaction. It
    lists the hooks it leaves unreferenced before it deletes them, and sees nothing of what
    the other has not committed. */
module Overlaps {
  import opened Prelude
  import opened Repohooks
  import opened Connections

  lemma SweepCoversIff(db: Db, gone: set<HookId>)
    requires UniqueHooks(db) && AllCovered(db) && HooksAllowed(db)
    ensures AllCovered(db.(hooks := db.hooks - gone)) <==>
            forall id :: id in gone && id in db.hooks ==> !Referenced(db, db.hooks[id])
  {
    var db' := db.(hooks := db.hooks - gone);
    if AllCovered(db') {
      forall id | id in gone && id in db.hooks ensures !Referenced(db, db.hooks[id]) {
        forall r | r in db.conns ensures !References(db.conns[r], db.hooks[id]) {
          assert r in db'.conns;
        }
      }
    }
    if forall id :: id in gone && id in db.hooks ==> !Referenced(db, db.hooks[id]) {
      forall r | r in db'.conns && !db'.providers[db'.conns[r].provider] ensures Covered(db', db'.conns[r]) {
        var id :| id in db.hooks && References(db.conns[r], db.hooks[id]);
        assert Referenced(db, db.hooks[id]);
        assert id in db'.hooks && References(db'.conns[r], db'.hooks[id]);
      }
    }
  }

  /** Hooks that were listed at some earlier time may be deleted without leaving a connection
      bare exactly when none of them is referenced now. */
  lemma StaleListingCoversIff(w: World, listed: seq<HookId>, providerOk: HookId -> bool, deleteOk: HookId -> bool)
    requires UniqueHooks(w.db) && AllSynced(w.db) && AllCovered(w.db) && HooksAllowed(w.db)
    requires forall i :: 0 <= i < |listed| ==> listed[i] in w.db.hooks
    requires forall i, j :: 0 <= i < j < |listed| ==> listed[i] != listed[j]
    requires DeleteEach(w, listed, providerOk, deleteOk).1
    ensures AllCovered(DeleteEach(w, listed, providerOk, deleteOk).0.db) <==>
            forall id :: id in listed ==> !Referenced(w.db, w.db.hooks[id])
  {
    DeleteEachDeletes(w, listed, providerOk, deleteOk);
    SweepCoversIff(w.db, Elements(listed));
  }

  /** Connecting changes neither the repository nor the number of the hooks that are there. */
  lemma HooksSurviveConnect(w: World, r: ResourceId, provider: ProviderId, repo: Repo, resourceFound: bool, env: Env)
    requires Inv(w.db) && FreshFor(w, provider, repo, env)
    ensures var db := Connect(w, r, provider, repo, resourceFound, env).0.db;
            && AllSynced(db)
            && (forall id :: id in w.db.hooks ==> id in db.hooks && IsFor(db.hooks[id], w.db.hooks[id].provider, w.db.hooks[id].repo))
            && (forall id :: id in db.hooks && id !in w.db.hooks ==> IsFor(db.hooks[id], provider, repo))
  {
    if Connect(w, r, provider, repo, resourceFound, env).1 { CreateRepohookCreates(w, provider, repo, env); }
  }

  /** None of the listed hooks is for the repository connected to meanwhile: they are still
      the unreferenced ones. */
  lemma ListingStaysRight(db: Db, r1: ResourceId, db1: Db, r2: ResourceId, c: Connection, listed: set<HookId>)
    requires listed == Unreferenced(WithoutConnection(db, r1)) && r1 != r2
    requires db1.conns == db.conns[r2 := c] && r2 !in db.conns
    requires forall id :: id in db.hooks ==> id in db1.hooks && IsFor(db1.hooks[id], db.hooks[id].provider, db.hooks[id].repo)
    requires forall id :: id in db1.hooks && id !in db.hooks ==> References(c, db1.hooks[id])
    requires forall id :: id in listed ==> !References(c, db.hooks[id])
    ensures Unreferenced(WithoutConnection(db1, r1)) == listed
  {
    var less, less1 := WithoutConnection(db, r1), WithoutConnection(db1, r1);
    forall id | id in db1.hooks ensures id in listed <==> !Referenced(less1, db1.hooks[id]) {
      assert less1.conns[r2] == c;
      if id in db.hooks && !References(c, db.hooks[id]) {
        if Referenced(less, db.hooks[id]) {
          var k :| k in less.conns && References(less.conns[k], db.hooks[id]);
          assert References(less1.conns[k], db1.hooks[id]);
        }
        if Referenced(less1, db1.hooks[id]) {
          var k :| k in less1.conns && References(less1.conns[k], db1.hooks[id]);
          assert k in less.conns && References(less.conns[k], db.hooks[id]);
        }
      } else {
        assert References(less1.conns[r2], db1.hooks[id]);
      }
    }
  }

  /** db1 is db with r2 connected, perhaps by means of a new hook. */
  ghost predicate Connected(db: Db, db1: Db, r2: ResourceId, c: Connection) {
    && r2 !in db.conns && db1.conns == db.conns[r2 := c] && db1.providers == db.providers
    && (forall id :: id in db.hooks ==> id in db1.hooks && IsFor(db1.hooks[id], db.hooks[id].provider, db.hooks[id].repo))
    && (forall id :: id in db1.hooks && id !in db.hooks ==> References(c, db1.hooks[id]))
  }

  lemma StaleSweepBreaksCover(db: Db, r1: ResourceId, r2: ResourceId, c: Connection, gone: set<HookId>, id: HookId, after: Db)
    requires UniqueHooks(db) && r1 != r2 && r2 in db.conns && db.conns[r2] == c
    requires id in db.hooks && id in gone && References(c, db.hooks[id])
    requires c.provider in db.providers && !db.providers[c.provider]
    requires after == WithoutConnection(db, r1).(hooks := db.hooks - gone)
    ensures !AllCovered(after)
  {
    assert after.conns[r2] == c && !Covered(after, c);
  }

  lemma StaleSweepKeepsInvIff(db: Db, r1: ResourceId, db1: Db, r2: ResourceId, c: Connection, after: Db)
    requires Inv(db) && Inv(db1) && r1 in db.conns && Connected(db, db1, r2, c)
    requires after == WithoutConnection(db1, r1).(hooks := db1.hooks - Unreferenced(WithoutConnection(db, r1)))
    ensures Inv(after) <==> forall id :: id in Unreferenced(WithoutConnection(db, r1)) ==> !References(c, db.hooks[id])
  {
    var listed := Unreferenced(WithoutConnection(db, r1));
    if id :| id in listed && References(c, db.hooks[id]) {
      StaleSweepBreaksCover(db1, r1, r2, c, listed, id, after);
    } else {
      ListingStaysRight(db, r1, db1, r2, c, listed);
      SweepKeepsInv(db1, r1, after);
    }
  }

  lemma ConnectConnects(w: World, r: ResourceId, provider: ProviderId, repo: Repo, resourceFound: bool, env: Env)
    requires Inv(w.db) && FreshFor(w, provider, repo, env) && Connect(w, r, provider, repo, resourceFound, env).1
    ensures Connected(w.db, Connect(w, r, provider, repo, resourceFound, env).0.db, r, Connection(provider, repo))
  {
    CreateRepohookCreates(w, provider, repo, env);
  }

  /** What the overlapped disconnection leaves in the tables. */
  lemma OverlapSweeps(w: World, r1: ResourceId, listed: seq<HookId>, providerOk: HookId -> bool, deleteOk: HookId -> bool, w1: World)
    requires ListsHooks(listed, Unreferenced(WithoutConnection(w.db, r1))) && forall id :: id in listed ==> providerOk(id)
    requires AllSynced(w1.db) && w.db.hooks.Keys <= w1.db.hooks.Keys
    ensures forall i :: 0 <= i < |listed| ==> listed[i] in w1.db.hooks && w1.db.hooks[listed[i]].cloudId.Some?
    ensures DeleteEach(w1.(db := WithoutConnection(w1.db, r1)), listed, providerOk, deleteOk).0.db
            == WithoutConnection(w1.db, r1).(hooks := w1.db.hooks - Unreferenced(WithoutConnection(w.db, r1)))
  {
    DeleteEachDeletes(w1.(db := WithoutConnection(w1.db, r1)), listed, providerOk, deleteOk);
    assert Elements(listed) == Unreferenced(WithoutConnection(w.db, r1));
  }

  lemma SameHooks(listed: seq<HookId>, db: Db, r1: ResourceId, provider: ProviderId, repo: Repo)
    requires ListsHooks(listed, Unreferenced(WithoutConnection(db, r1)))
    ensures (forall id :: id in listed ==> !IsFor(db.hooks[id], provider, repo)) <==>
            forall id :: id in Unreferenced(WithoutConnection(db, r1)) ==> !References(Connection(provider, repo), db.hooks[id])
  {
    assert forall id :: id in listed <==> id in Unreferenced(WithoutConnection(db, r1));
    assert forall id :: id in listed ==> (IsFor(db.hooks[id], provider, repo) <==> References(Connection(provider, repo), db.hooks[id]));
  }

  /** r1 is being disconnected and has listed the hooks that this leaves unreferenced; before
      it deletes them r2 is connected. Either transaction may fail and be rolled back. */
  ghost function ConnectMeanwhile(w: World, r1: ResourceId, listed: seq<HookId>, providerOk: HookId -> bool, deleteOk: HookId -> bool,
                                  r2: ResourceId, provider: ProviderId, repo: Repo, resourceFound: bool, env: Env): World
    requires Inv(w.db) && FreshFor(w, provider, repo, env) && ListsHooks(listed, Unreferenced(WithoutConnection(w.db, r1)))
  {
    var w1 := Connect(w, r2, provider, repo, resourceFound, env).0;
    if !Connectable(r1) || r1 !in w.db.conns then w1
    else
      HooksSurviveConnect(w, r2, provider, repo, resourceFound, env);
      var (w2, ok) := DeleteEach(w1.(db := WithoutConnection(w1.db, r1)), listed, providerOk, deleteOk);
      if ok then w2 else World(w1.db, w2.cloud)
  }

  /** The disconnection gets through. */
  predicate Disconnects(db: Db, r: ResourceId, listed: seq<HookId>, providerOk: HookId -> bool) {
    Connectable(r) && r in db.conns && forall id :: id in listed ==> providerOk(id)
  }

  /** The tables then stay consistent exactly when one of the two failed or the connection is
      to a repository none of whose hooks was listed. */
  lemma ConnectMeanwhileKeepsInvIff(w: World, r1: ResourceId, listed: seq<HookId>, providerOk: HookId -> bool, deleteOk: HookId -> bool,
                                    r2: ResourceId, provider: ProviderId, repo: Repo, resourceFound: bool, env: Env)
    requires Inv(w.db) && FreshFor(w, provider, repo, env) && ListsHooks(listed, Unreferenced(WithoutConnection(w.db, r1)))
    ensures Inv(ConnectMeanwhile(w, r1, listed, providerOk, deleteOk, r2, provider, repo, resourceFound, env).db) <==>
            (Disconnects(w.db, r1, listed, providerOk) && Connect(w, r2, provider, repo, resourceFound, env).1 ==>
               forall id :: id in listed ==> !IsFor(w.db.hooks[id], provider, repo))
  {
    var (w1, ok) := Connect(w, r2, provider, repo, resourceFound, env);
    ConnectKeepsInv(w, r2, provider, repo, resourceFound, env);
    if Connectable(r1) && r1 in w.db.conns {
      HooksSurviveConnect(w, r2, provider, repo, resourceFound, env);
      DeletesWhatIsListed(w, r1, listed, providerOk, deleteOk, w1);
      if Disconnects(w.db, r1, listed, providerOk) {
        OverlapSweeps(w, r1, listed, providerOk, deleteOk, w1);
        var after := DeleteEach(w1.(db := WithoutConnection(w1.db, r1)), listed, providerOk, deleteOk).0.db;
        if ok {
          ConnectConnects(w, r2, provider, repo, resourceFound, env);
          StaleSweepKeepsInvIff(w.db, r1, w1.db, r2, Connection(provider, repo), after);
          SameHooks(listed, w.db, r1, provider, repo);
        } else {
          SweepKeepsInv(w.db, r1, after);
        }
      }
    }
  }

  lemma DeletesWhatIsListed(w: World, r1: ResourceId, listed: seq<HookId>, providerOk: HookId -> bool, deleteOk: HookId -> bool, w1: World)
    requires ListsHooks(listed, Unreferenced(WithoutConnection(w.db, r1)))
    requires AllSynced(w1.db) && w.db.hooks.Keys <= w1.db.hooks.Keys
    ensures forall i :: 0 <= i < |listed| ==> listed[i] in w1.db.hooks && w1.db.hooks[listed[i]].cloudId.Some?
    ensures DeleteEach(w1.(db := WithoutConnection(w1.db, r1)), listed, providerOk, deleteOk).1 <==> forall id :: id in listed ==> providerOk(id)
  {
    DeleteEachDeletes(w1.(db := WithoutConnection(w1.db, r1)), listed, providerOk, deleteOk);
  }

  /** Two resources can bring this about from nothing: the first connects, its disconnection
      lists the hook, the second connects to the same repository, and the hook goes. */
  lemma StaleListingUncovers(p: ProviderId, repo: Repo, r1: ResourceId, r2: ResourceId, env: Env, providerOk: HookId -> bool, deleteOk: HookId -> bool)
    requires Connectable(r1) && Connectable(r2) && r1 != r2
    requires env.tokenOk && env.getOk && env.updateOk && env.created.Some? && providerOk(env.newId)
    ensures var w := Connect(World(Db(map[p := false], map[], map[]), map[]), r1, p, repo, true, env).0;
            var later := env.(newId := env.newId + "'", created := Some(env.created.value + "'"));
            var listed := [env.newId];
            && Inv(w.db) && ListsHooks(listed, Unreferenced(WithoutConnection(w.db, r1))) && FreshFor(w, p, repo, later)
            && !Inv(ConnectMeanwhile(w, r1, listed, providerOk, deleteOk, r2, p, repo, true, later).db)
  {
    var start := World(Db(map[p := false], map[], map[]), map[]);
    ConnectKeepsInv(start, r1, p, repo, true, env);
    var w := Connect(start, r1, p, repo, true, env).0;
    var h := Hook(p, repo, env.newSecret, env.created);
    var later := env.(newId := env.newId + "'", created := Some(env.created.value + "'"));
    assert w.db == Db(map[p := false], map[r1 := Connection(p, repo)], map[env.newId := h]);
    assert w.cloud.Keys == {AddressOf(h, env.created.value)};
    assert |later.newId| != |env.newId| && |later.created.value| != |env.created.value|;
    assert Unreferenced(WithoutConnection(w.db, r1)) == {env.newId};
    assert IsFor(w.db.hooks[env.newId], p, repo);
    assert Connect(w, r2, p, repo, true, later).1;
    ConnectMeanwhileKeepsInvIff(w, r1, [env.newId], providerOk, deleteOk, r2, p, repo, true, later);
    assert env.newId in [env.newId];
  }

  /* ---------- Two disconnections ---------- */

  lemma MakesReferenced(db: Db, r: ResourceId, c: Connection, h: Hook)
    requires References(c, h)
    ensures r in db.conns && db.conns[r] == c ==> Referenced(db, h)
  {
  }

  /** Two resources are being disconnected, and neither transaction sees the other's deletion
      when it lists the hooks left unreferenced. */
  lemma ListingsAreDisjoint(db: Db, r1: ResourceId, r2: ResourceId, id: HookId)
    requires Inv(db) && r1 != r2 && id in Unreferenced(WithoutConnection(db, r1))
    ensures id !in Unreferenced(WithoutConnection(db, r2))
  {
    var k :| k in db.conns && References(db.conns[k], db.hooks[id]);
    var less1, less2 := WithoutConnection(db, r1), WithoutConnection(db, r2);
    MakesReferenced(less1, k, db.conns[k], db.hooks[id]);
    assert References(less2.conns[k], less2.hooks[id]);
  }

  /** r1 and r2 are connected to the same repository, nobody else is, and it has a hook. */
  predicate SoleSharers(db: Db, r1: ResourceId, r2: ResourceId) {
    && r1 in db.conns && r2 in db.conns && db.conns[r1] == db.conns[r2] && Covered(db, db.conns[r1])
    && forall r :: r in db.conns && db.conns[r] == db.conns[r1] ==> r == r1 || r == r2
  }

  /** The tables after both have committed. */
  function BothGone(db: Db, r1: ResourceId, r2: ResourceId): Db {
    db.(conns := db.conns - {r1} - {r2},
        hooks := db.hooks - Unreferenced(WithoutConnection(db, r1)) - Unreferenced(WithoutConnection(db, r2)))
  }

  lemma BothGoneCovers(db: Db, r1: ResourceId, r2: ResourceId)
    requires Inv(db)
    ensures InvButForReferences(BothGone(db, r1, r2))
  {
    var db' := BothGone(db, r1, r2);
    forall r | r in db'.conns && !db'.providers[db'.conns[r].provider] ensures Covered(db', db'.conns[r]) {
      assert Covered(db, db.conns[r]);
      var id :| id in db.hooks && References(db.conns[r], db.hooks[id]);
      assert Referenced(WithoutConnection(db, r1), db.hooks[id]) by { assert References(WithoutConnection(db, r1).conns[r], db.hooks[id]); }
      assert Referenced(WithoutConnection(db, r2), db.hooks[id]) by { assert References(WithoutConnection(db, r2).conns[r], db.hooks[id]); }
      assert id in db'.hooks && References(db'.conns[r], db'.hooks[id]);
    }
  }

  /** A hook survives both without a connection of its own exactly when the two shared it. */
  lemma LeftoverIffShared(db: Db, r1: ResourceId, r2: ResourceId, id: HookId)
    requires Inv(db) && r1 != r2 && id in BothGone(db, r1, r2).hooks
    ensures !Referenced(BothGone(db, r1, r2), db.hooks[id]) <==> SoleSharers(db, r1, r2) && References(db.conns[r1], db.hooks[id])
  {
    var db', less1, less2 := BothGone(db, r1, r2), WithoutConnection(db, r1), WithoutConnection(db, r2);
    var k1 :| k1 in less1.conns && References(less1.conns[k1], less1.hooks[id]);
    var k2 :| k2 in less2.conns && References(less2.conns[k2], less2.hooks[id]);
    if Referenced(db', db.hooks[id]) {
      var k :| k in db'.conns && References(db'.conns[k], db.hooks[id]);
      assert db.conns[k] == db'.conns[k];
    } else {
      MakesReferenced(db', k1, db.conns[k1], db.hooks[id]);
      MakesReferenced(db', k2, db.conns[k2], db.hooks[id]);
      forall r | r in db.conns && db.conns[r] == db.conns[r1] ensures r == r1 || r == r2 {
        MakesReferenced(db', r, db.conns[r], db.hooks[id]);
      }
      assert Covered(db, db.conns[r1]);
    }
  }

  /** So the tables stay consistent exactly when the two were not the last to share a hook;
      otherwise that hook, and nothing else, is left over. */
  lemma BothGoneKeepsInvIff(db: Db, r1: ResourceId, r2: ResourceId)
    requires Inv(db) && r1 in db.conns && r2 in db.conns && r1 != r2
    ensures Inv(BothGone(db, r1, r2)) <==> !SoleSharers(db, r1, r2)
  {
    var db' := BothGone(db, r1, r2);
    BothGoneCovers(db, r1, r2);
    forall id | id in db'.hooks
      ensures !Referenced(db', db'.hooks[id]) <==> SoleSharers(db, r1, r2) && References(db.conns[r1], db.hooks[id])
    {
      LeftoverIffShared(db, r1, r2, id);
    }
    if SoleSharers(db, r1, r2) {
      var id := SharedHookSurvives(db, r1, r2);
      assert !AllReferenced(db');
    }
  }

  lemma SharedHookSurvives(db: Db, r1: ResourceId, r2: ResourceId) returns (id: HookId)
    requires SoleSharers(db, r1, r2) && r1 != r2
    ensures id in BothGone(db, r1, r2).hooks && References(db.conns[r1], db.hooks[id])
  {
    id :| id in db.hooks && References(db.conns[r1], db.hooks[id]);
    MakesReferenced(WithoutConnection(db, r1), r2, db.conns[r2], db.hooks[id]);
    MakesReferenced(WithoutConnection(db, r2), r1, db.conns[r1], db.hooks[id]);
  }

  /** The two disconnections as transactions, either of which may fail and be rolled back. */
  ghost function DisconnectMeanwhile(w: World, r1: ResourceId, listed1: seq<HookId>, providerOk1: HookId -> bool, deleteOk1: HookId -> bool,
                                     r2: ResourceId, listed2: seq<HookId>, providerOk2: HookId -> bool, deleteOk2: HookId -> bool): World
    requires Inv(w.db) && r1 != r2
    requires ListsHooks(listed1, Unreferenced(WithoutConnection(w.db, r1))) && ListsHooks(listed2, Unreferenced(WithoutConnection(w.db, r2)))
  {
    var (w1, ok1) := Disconnect(w, r1, listed1, providerOk1, deleteOk1);
    if !Connectable(r2) || r2 !in w.db.conns then w1
    else
      FirstLeavesSecondsHooks(w, r1, listed1, providerOk1, deleteOk1, r2, listed2);
      var (w2, ok2) := DeleteEach(w1.(db := WithoutConnection(w1.db, r2)), listed2, providerOk2, deleteOk2);
      if ok2 then w2 else World(w1.db, w2.cloud)
  }

  lemma FirstLeavesSecondsHooks(w: World, r1: ResourceId, listed1: seq<HookId>, providerOk1: HookId -> bool, deleteOk1: HookId -> bool,
                                r2: ResourceId, listed2: seq<HookId>)
    requires Inv(w.db) && r1 != r2
    requires ListsHooks(listed1, Unreferenced(WithoutConnection(w.db, r1))) && ListsHooks(listed2, Unreferenced(WithoutConnection(w.db, r2)))
    ensures var (w1, ok1) := Disconnect(w, r1, listed1, providerOk1, deleteOk1);
            && (ok1 <==> Disconnects(w.db, r1, listed1, providerOk1))
            && w1.db == (if ok1 then WithoutConnection(w.db, r1).(hooks := w.db.hooks - Unreferenced(WithoutConnection(w.db, r1))) else w.db)
            && forall i :: 0 <= i < |listed2| ==> listed2[i] in w1.db.hooks && w1.db.hooks[listed2[i]].cloudId.Some?
  {
    DeleteEachDeletes(w.(db := WithoutConnection(w.db, r1)), listed1, providerOk1, deleteOk1);
    assert Elements(listed1) == Unreferenced(WithoutConnection(w.db, r1));
    forall i | 0 <= i < |listed2| ensures listed2[i] !in Unreferenced(WithoutConnection(w.db, r1)) {
      if listed2[i] in Unreferenced(WithoutConnection(w.db, r1)) { ListingsAreDisjoint(w.db, r1, r2, listed2[i]); }
    }
  }

  lemma DisconnectMeanwhileKeepsInvIff(w: World, r1: ResourceId, listed1: seq<HookId>, providerOk1: HookId -> bool, deleteOk1: HookId -> bool,
                                       r2: ResourceId, listed2: seq<HookId>, providerOk2: HookId -> bool, deleteOk2: HookId -> bool)
    requires Inv(w.db) && r1 != r2
    requires ListsHooks(listed1, Unreferenced(WithoutConnection(w.db, r1))) && ListsHooks(listed2, Unreferenced(WithoutConnection(w.db, r2)))
    ensures var db' := DisconnectMeanwhile(w, r1, listed1, providerOk1, deleteOk1, r2, listed2, providerOk2, deleteOk2).db;
            && InvButForReferences(db')
            && (Inv(db') <==>
                !(Disconnects(w.db, r1, listed1, providerOk1) && Disconnects(w.db, r2, listed2, providerOk2) && SoleSharers(w.db, r1, r2)))
  {
    FirstLeavesSecondsHooks(w, r1, listed1, providerOk1, deleteOk1, r2, listed2);
    DisconnectKeepsInv(w, r1, listed1, providerOk1, deleteOk1);
    var (w1, ok1) := Disconnect(w, r1, listed1, providerOk1, deleteOk1);
    if Connectable(r2) && r2 in w.db.conns {
      DeleteEachDeletes(w1.(db := WithoutConnection(w1.db, r2)), listed2, providerOk2, deleteOk2);
      assert Elements(listed2) == Unreferenced(WithoutConnection(w.db, r2));
      var (w2, ok2) := DeleteEach(w1.(db := WithoutConnection(w1.db, r2)), listed2, providerOk2, deleteOk2);
      if ok1 && ok2 {
        assert w2.db == BothGone(w.db, r1, r2);
        BothGoneKeepsInvIff(w.db, r1, r2);
        BothGoneCovers(w.db, r1, r2);
      } else if ok2 {
        SweepKeepsInv(w.db, r2, w2.db);
      }
    }
  }

  /** A leftover hook goes with the next disconnection, of whatever resource. */
  lemma NextDisconnectHeals(w: World, r: ResourceId, listed: seq<HookId>, providerOk: HookId -> bool, deleteOk: HookId -> bool)
    requires InvButForReferences(w.db) && ListsHooks(listed, Unreferenced(WithoutConnection(w.db, r)))
    requires Disconnect(w, r, listed, providerOk, deleteOk).1
    ensures Inv(Disconnect(w, r, listed, providerOk, deleteOk).0.db)
  {
    var db := WithoutConnection(w.db, r);
    DeleteEachDeletes(w.(db := db), listed, providerOk, deleteOk);
    assert Elements(listed) == Unreferenced(db);
    SweepKeepsInv(w.db, r, Disconnect(w, r, listed, providerOk, deleteOk).0.db);
  }

  /* ---------- Runs with overlaps ---------- */

  /** A transaction by itself, or a disconnection overlapping with another transaction. */
  datatype Event =
    | Alone(op: Op)
    | WithConnect(r1: ResourceId, listed: seq<HookId>, providerOk: HookId -> bool, deleteOk: HookId -> bool,
                  r2: ResourceId, provider: ProviderId, repo: Repo, resourceFound: bool, env: Env)
    | WithDisconnect(r1: ResourceId, listed: seq<HookId>, providerOk: HookId -> bool, deleteOk: HookId -> bool,
                     r2: ResourceId, listed2: seq<HookId>, providerOk2: HookId -> bool, deleteOk2: HookId -> bool)

  ghost predicate CanHappen(w: World, e: Event) {
    match e
    case Alone(op) => Possible(w, op)
    case WithConnect(r1, listed, _, _, _, provider, repo, _, env) =>
      FreshFor(w, provider, repo, env) && ListsHooks(listed, Unreferenced(WithoutConnection(w.db, r1)))
    case WithDisconnect(r1, listed, _, _, r2, listed2, _, _) =>
      r1 != r2 && ListsHooks(listed, Unreferenced(WithoutConnection(w.db, r1))) && ListsHooks(listed2, Unreferenced(WithoutConnection(w.db, r2)))
  }

  ghost function After(w: World, e: Event): World
    requires Inv(w.db) && CanHappen(w, e)
  {
    match e
    case Alone(op) => Do(w, op)
    case WithConnect(r1, listed, providerOk, deleteOk, r2, provider, repo, resourceFound, env) =>
      ConnectMeanwhile(w, r1, listed, providerOk, deleteOk, r2, provider, repo, resourceFound, env)
    case WithDisconnect(r1, listed, providerOk, deleteOk, r2, listed2, providerOk2, deleteOk2) =>
      DisconnectMeanwhile(w, r1, listed, providerOk, deleteOk, r2, listed2, providerOk2, deleteOk2)
  }

  /** The overlap does not matter: one of the two fails, or they are not about the same hook. */
  ghost predicate Harmless(w: World, e: Event)
    requires CanHappen(w, e)
  {
    match e
    case Alone(_) => true
    case WithConnect(r1, listed, providerOk, _, r2, provider, repo, resourceFound, env) =>
      Disconnects(w.db, r1, listed, providerOk) && Connect(w, r2, provider, repo, resourceFound, env).1 ==>
        forall id :: id in listed ==> !IsFor(w.db.hooks[id], provider, repo)
    case WithDisconnect(r1, listed, providerOk, _, r2, listed2, providerOk2, _) =>
      !(Disconnects(w.db, r1, listed, providerOk) && Disconnects(w.db, r2, listed2, providerOk2) && SoleSharers(w.db, r1, r2))
  }

  lemma AfterKeepsInvIff(w: World, e: Event)
    requires Inv(w.db) && CanHappen(w, e)
    ensures Inv(After(w, e).db) <==> Harmless(w, e)
  {
    match e
    case Alone(op) => DoKeepsInv(w, op);
    case WithConnect(r1, listed, providerOk, deleteOk, r2, provider, repo, resourceFound, env) =>
      ConnectMeanwhileKeepsInvIff(w, r1, listed, providerOk, deleteOk, r2, provider, repo, resourceFound, env);
    case WithDisconnect(r1, listed, providerOk, deleteOk, r2, listed2, providerOk2, deleteOk2) =>
      DisconnectMeanwhileKeepsInvIff(w, r1, listed, providerOk, deleteOk, r2, listed2, providerOk2, deleteOk2);
  }

  /** A run from an empty installation; nothing is said of what follows an inconsistency. */
  ghost predicate IsOverlappingRun(ws: seq<World>, es: seq<Event>) {
    && |ws| == |es| + 1
    && ws[0].db == Db(map[], map[], map[])
    && forall i :: 0 <= i < |es| ==> CanHappen(ws[i], es[i]) && (Inv(ws[i].db) ==> ws[i + 1] == After(ws[i], es[i]))
  }

  /** The tables are consistent throughout a run exactly when every overlap in it is harmless. */
  lemma ConsistentIffOverlapsHarmless(ws: seq<World>, es: seq<Event>)
    requires IsOverlappingRun(ws, es)
    ensures (forall n :: 0 <= n < |ws| ==> Inv(ws[n].db)) <==> forall i :: 0 <= i < |es| ==> Harmless(ws[i], es[i])
  {
    if forall n :: 0 <= n < |ws| ==> Inv(ws[n].db) {
      forall i | 0 <= i < |es| ensures Harmless(ws[i], es[i]) {
        assert Inv(ws[i].db) && Inv(ws[i + 1].db);
        AfterKeepsInvIff(ws[i], es[i]);
      }
    }
    if forall i :: 0 <= i < |es| ==> Harmless(ws[i], es[i]) {
      forall n | 0 <= n < |ws| ensures Inv(ws[n].db) { ConsistentSoFar(ws, es, n); }
    }
  }

  lemma {:induction false} ConsistentSoFar(ws: seq<World>, es: seq<Event>, n: nat)
    requires IsOverlappingRun(ws, es) && n < |ws| && forall i :: 0 <= i < |es| ==> Harmless(ws[i], es[i])
    ensures Inv(ws[n].db)
  {
    if n > 0 {
      ConsistentSoFar(ws, es, n - 1);
      AfterKeepsInvIff(ws[n - 1], es[n - 1]);
    }
  }
}
