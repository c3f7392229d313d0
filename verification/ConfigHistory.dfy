/** What the notification service (internal/notifications/service.go) does to the table of
    configurations: each accepted request commits one change. */
module ConfigHistory {
  import opened Prelude
  import opened Broker
  import opened SnapshotReplay
  import opened NotificationConfig
  import opened NotificationCache

  type ConfigChange = Change<ConfigId, Config>

  /** A request; deletions include those that follow from deleting the workspace. */
  datatype Request =
    | CreateRequest(id: ConfigId, workspace: string, create: CreateOptions, time: int)
    | UpdateRequest(id: ConfigId, update: UpdateOptions, time: int)
    | DeleteRequest(id: ConfigId, time: int)

  /** The change a request commits, if any: a rejected one is rolled back. */
  function Perform(parses: string -> bool, db: map<ConfigId, Config>, r: Request): Option<ConfigChange> {
    match r
    case CreateRequest(id, workspace, opts, time) =>
      var cfg := NewConfig(parses, workspace, opts);
      if cfg.Err? || id in db then None else Some(Event(Created, Row(id, cfg.value), time))
    case UpdateRequest(id, opts, time) =>
      if id !in db || Update(db[id], opts).1.Some? then None
      else Some(Event(Updated, Row(id, Update(db[id], opts).0), time))
    case DeleteRequest(id, time) =>
      if id !in db then None else Some(Event(Deleted, Row(id, db[id]), time))
  }

  function History(parses: string -> bool, requests: seq<Request>): seq<ConfigChange> {
    if requests == [] then []
    else
      var hist := History(parses, requests[..|requests| - 1]);
      var change := Perform(parses, Table(hist), requests[|requests| - 1]);
      if change.Some? then hist + [change.value] else hist
  }

  /** A request takes effect exactly if it is valid and about a configuration that is there, or
      for a creation is not; the table is then as requested, and otherwise as it was. */
  lemma RequestTakesEffect(parses: string -> bool, requests: seq<Request>, r: Request)
    ensures var db, db' := Table(History(parses, requests)), Table(History(parses, requests + [r]));
            && (r.CreateRequest? ==>
                  db' == if r.id !in db && NewConfig(parses, r.workspace, r.create).Ok?
                         then db[r.id := NewConfig(parses, r.workspace, r.create).value] else db)
            && (r.UpdateRequest? ==>
                  db' == if r.id in db && Update(db[r.id], r.update).1.None? then db[r.id := Update(db[r.id], r.update).0] else db)
            && (r.DeleteRequest? ==> db' == db - {r.id})
  {
    assert (requests + [r])[..|requests|] == requests;
    var hist := History(parses, requests);
    var change := Perform(parses, Table(hist), r);
    if change.Some? {
      assert (hist + [change.value])[..|hist|] == hist;
    } else if r.DeleteRequest? {
      assert Table(hist) - {r.id} == Table(hist);
    }
  }

  ghost predicate WellFormedHistory(hist: seq<ConfigChange>) {
    forall i :: 0 <= i < |hist| ==> WellFormed(hist[i].payload.value)
  }

  predicate Sound(c: Config) { WellFormed(c) && ValidTriggers(c.triggers) && c.name != "" }

  ghost predicate SoundTable(db: map<ConfigId, Config>) { forall id :: id in db ==> Sound(db[id]) }

  lemma PerformIsSound(parses: string -> bool, db: map<ConfigId, Config>, r: Request)
    requires SoundTable(db) && Perform(parses, db, r).Some?
    ensures var e := Perform(parses, db, r).value;
            Legal(NotEmail, db, e) && Sound(e.payload.value) && SoundTable(ApplyChange(db, e))
  {
    if r.UpdateRequest? { UpdateKeeps(db[r.id], r.update); }
  }

  /** Whatever is requested, the committed changes are legal (none turns an email
      configuration into another kind or back), and every configuration in them and in the
      table has a URL unless it is for email, known triggers and a name. */
  lemma {:induction false} HistoryIsSound(parses: string -> bool, requests: seq<Request>)
    ensures var hist := History(parses, requests);
            LegalHistory(NotEmail, hist) && WellFormedHistory(hist) && SoundTable(Table(hist))
  {
    if requests != [] {
      var init, last := requests[..|requests| - 1], requests[|requests| - 1];
      HistoryIsSound(parses, init);
      var hist := History(parses, init);
      var change := Perform(parses, Table(hist), last);
      if change.Some? {
        PerformIsSound(parses, Table(hist), last);
        LegalOneMore(NotEmail, hist, change.value);
        assert (hist + [change.value])[..|hist|] == hist;
      }
    }
  }
}
