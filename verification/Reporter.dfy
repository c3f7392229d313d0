/** Reporting run statuses to VCS hosts (internal/run/reporter.go), with a cache that keeps
    the same status from being sent twice. */
module Reporter {
  import opened Prelude
  import opened RunStatus

  type RunId = string

  datatype VcsStatus = PendingStatus | SuccessStatus | ErrorStatus

  datatype RunEvent = RunEvent(deleted: bool, id: RunId, source: string, status: string)

  /** What the reporter's lookups return for one event: whether the configuration version can
      be found and came from a repository, whether the workspace can be found and is
      connected, whether the provider can be found, whether the run can be found and is
      done by now, and whether the host accepts a status. */
  datatype Lookups = Lookups(config: Option<bool>, workspace: Option<bool>, provider: bool, runDone: Option<bool>, accepted: bool)

  datatype Send = Send(id: RunId, status: VcsStatus, runDone: bool)

  datatype State = State(cache: map<RunId, VcsStatus>, sent: seq<Send>)

  /** A run is pending for the host exactly as long as it has not ended. */
  function StatusFor(status: string): (r: Option<VcsStatus>)
    ensures r == Some(SuccessStatus) || r == Some(ErrorStatus) <==> Done(status)
    ensures r == Some(SuccessStatus) <==> status == "applied" || status == "planned_and_finished"
    ensures r == Some(ErrorStatus) <==> status == "errored" || status == "canceled" || status == "force_canceled" || status == "discarded"
    ensures r == Some(PendingStatus) <==>
            || status == "pending" || status == "plan_queued" || status == "planning" || status == "planned"
            || status == "confirmed" || status == "apply_queued" || status == "applying"
  {
    if status in {"pending", "plan_queued", "apply_queued", "planning", "applying", "planned", "confirmed"} then Some(PendingStatus)
    else if status in {"planned_and_finished", "applied"} then Some(SuccessStatus)
    else if status in {"errored", "canceled", "force_canceled", "discarded"} then Some(ErrorStatus)
    else None
  }

  datatype Verdict = Ignored | Fails | Report(status: VcsStatus, runDone: bool)

  /** Everything handleRun does before it looks at the cache. */
  function Judge(e: RunEvent, l: Lookups): Verdict {
    if e.deleted || e.source == "tfe-ui" || e.source == "tfe-api" then Ignored
    else if l.config.None? then Fails
    else if !l.config.value then Ignored
    else if l.workspace.None? || !l.workspace.value || !l.provider || l.runDone.None? then Fails
    else if StatusFor(e.status).None? then Fails
    else Report(StatusFor(e.status).value, l.runDone.value)
  }

  /** The rest: skip a duplicate, else send, then remember the status of an unfinished run
      and forget a finished one. The result is false on error. */
  function Handle(s: State, e: RunEvent, l: Lookups): (State, bool) {
    match Judge(e, l)
    case Ignored => (s, true)
    case Fails => (s, false)
    case Report(status, runDone) =>
      if e.id in s.cache && s.cache[e.id] == status then (s, true)
      else if !l.accepted then (s, false)
      else
        (State(if runDone then s.cache - {e.id} else s.cache[e.id := status], s.sent + [Send(e.id, status, runDone)]), true)
  }

  /** The same without a cache: every report is sent. */
  function HandleUncached(sent: seq<Send>, e: RunEvent, l: Lookups): seq<Send> {
    match Judge(e, l)
    case Report(status, runDone) => if l.accepted then sent + [Send(e.id, status, runDone)] else sent
    case _ => sent
  }

  /** When an event is ignored, and when it is reported as what. */
  lemma JudgeIff(e: RunEvent, l: Lookups)
    ensures Judge(e, l).Ignored? <==>
            e.deleted || e.source == "tfe-ui" || e.source == "tfe-api" || l.config == Some(false)
    ensures Judge(e, l).Report? <==>
            && !e.deleted && e.source != "tfe-ui" && e.source != "tfe-api"
            && l.config == Some(true) && l.workspace == Some(true) && l.provider && l.runDone.Some?
            && (Done(e.status) || e.status == "pending" || e.status == "plan_queued" || e.status == "planning" || e.status == "planned"
                || e.status == "confirmed" || e.status == "apply_queued" || e.status == "applying")
    ensures Judge(e, l).Report? ==> Some(Judge(e, l).status) == StatusFor(e.status) && Some(Judge(e, l).runDone) == l.runDone
  {
  }

  /** A status is sent exactly when there is one to report that is not the cached one and the
      host accepts it; handling fails exactly when there is one to report or a lookup fails, and
      it comes to nothing. */
  lemma HandleSendsIff(s: State, e: RunEvent, l: Lookups)
    ensures var (s', ok) := Handle(s, e, l);
            var report := Judge(e, l).Report?;
            var cached := report && e.id in s.cache && Some(s.cache[e.id]) == StatusFor(e.status);
            && (s'.sent == if report && !cached && l.accepted
                           then s.sent + [Send(e.id, StatusFor(e.status).value, l.runDone.value)] else s.sent)
            && (ok <==> Judge(e, l).Ignored? || cached || (report && l.accepted))
  {
    JudgeIff(e, l);
  }

  class StatusReporter {
    var cache: map<RunId, VcsStatus>
    var sent: seq<Send>

    method HandleRun(e: RunEvent, l: Lookups) returns (ok: bool)
      modifies this
      ensures (State(cache, sent), ok) == Handle(State(old(cache), old(sent)), e, l)
    {
      if e.deleted || e.source == "tfe-ui" || e.source == "tfe-api" {
        return true;
      }
      if l.config.None? {
        return false;
      }
      if !l.config.value {
        return true;
      }
      if l.workspace.None? || !l.workspace.value || !l.provider || l.runDone.None? {
        return false;
      }
      var status := StatusFor(e.status);
      if status.None? {
        return false;
      }
      if e.id in cache && cache[e.id] == status.value {
        return true;
      }
      if !l.accepted {
        return false;
      }
      sent := sent + [Send(e.id, status.value, l.runDone.value)];
      if l.runDone.value {
        cache := cache - {e.id};
      } else {
        cache := cache[e.id := status.value];
      }
      return true;
    }
  }

  type Trace = seq<(RunEvent, Lookups)>

  function Run(t: Trace): State {
    if t == [] then State(map[], []) else Handle(Run(t[..|t| - 1]), t[|t| - 1].0, t[|t| - 1].1).0
  }

  function RunUncached(t: Trace): seq<Send> {
    if t == [] then [] else HandleUncached(RunUncached(t[..|t| - 1]), t[|t| - 1].0, t[|t| - 1].1)
  }

  /** The last thing sent on behalf of a run. */
  function Last(sent: seq<Send>, id: RunId): Option<Send> {
    if sent == [] then None
    else if sent[|sent| - 1].id == id then Some(sent[|sent| - 1])
    else Last(sent[..|sent| - 1], id)
  }

  lemma LastOfAppend(sent: seq<Send>, s: Send, id: RunId)
    ensures Last(sent + [s], id) == if s.id == id then Some(s) else Last(sent, id)
  {
    assert (sent + [s])[..|sent|] == sent;
  }

  /** The cache is determined by what was sent: the last status of every run that was not
      yet done when it was sent. */
  ghost predicate CacheOk(s: State) {
    forall id ::
      if id in s.cache
      then Last(s.sent, id).Some? && !Last(s.sent, id).value.runDone && Last(s.sent, id).value.status == s.cache[id]
      else Last(s.sent, id).None? || Last(s.sent, id).value.runDone
  }

  lemma HandleKeepsCacheOk(s: State, e: RunEvent, l: Lookups)
    requires CacheOk(s)
    ensures CacheOk(Handle(s, e, l).0)
  {
    if Judge(e, l).Report? {
      var Report(status, runDone) := Judge(e, l);
      forall id ensures Last(s.sent + [Send(e.id, status, runDone)], id) ==
                        if e.id == id then Some(Send(e.id, status, runDone)) else Last(s.sent, id) {
        LastOfAppend(s.sent, Send(e.id, status, runDone), id);
      }
    }
  }

  lemma {:induction false} RunKeepsCacheOk(t: Trace)
    ensures CacheOk(Run(t))
  {
    if t != [] {
      RunKeepsCacheOk(t[..|t| - 1]);
      HandleKeepsCacheOk(Run(t[..|t| - 1]), t[|t| - 1].0, t[|t| - 1].1);
    }
  }

  /* ---------- Main results ---------- */

  /** After every reportable event handled without error, the last status sent on behalf of
      the run is the one the event calls for, whether or not this event sent it. */
  lemma LastSentIsCurrent(t: Trace, e: RunEvent, l: Lookups)
    requires Judge(e, l).Report? && Handle(Run(t), e, l).1
    ensures var last := Last(Run(t + [(e, l)]).sent, e.id);
            && last.Some? && Some(last.value.status) == StatusFor(e.status)
            && (e.status in ["applied", "planned_and_finished"] ==> last.value.status == SuccessStatus)
            && (e.status in ["errored", "canceled", "force_canceled", "discarded"] ==> last.value.status == ErrorStatus)
            && (e.status in ["pending", "plan_queued", "planning", "planned", "confirmed", "apply_queued", "applying"] ==>
                  last.value.status == PendingStatus)
  {
    assert (t + [(e, l)])[..|t|] == t;
    RunKeepsCacheOk(t);
    LastOfAppend(Run(t).sent, Send(e.id, Judge(e, l).status, Judge(e, l).runDone), e.id);
  }

  function StatusOf(s: Option<Send>): Option<VcsStatus> {
    match s case None => None case Some(x) => Some(x.status)
  }

  /** The cache changes nothing that matters: after any events, with any lookups failing, the
      last status sent for each run is what it would be without the cache, and no more has
      been sent. */
  lemma {:induction false} CachedRefinesUncached(t: Trace, id: RunId)
    ensures StatusOf(Last(Run(t).sent, id)) == StatusOf(Last(RunUncached(t), id))
    ensures |Run(t).sent| <= |RunUncached(t)|
  {
    if t != [] {
      var init, e, l := t[..|t| - 1], t[|t| - 1].0, t[|t| - 1].1;
      CachedRefinesUncached(init, id);
      RunKeepsCacheOk(init);
      EventRefines(Run(init), RunUncached(init), e, l, id);
    }
  }

  lemma EventRefines(s: State, u: seq<Send>, e: RunEvent, l: Lookups, id: RunId)
    requires CacheOk(s) && StatusOf(Last(s.sent, id)) == StatusOf(Last(u, id)) && |s.sent| <= |u|
    ensures StatusOf(Last(Handle(s, e, l).0.sent, id)) == StatusOf(Last(HandleUncached(u, e, l), id))
    ensures |Handle(s, e, l).0.sent| <= |HandleUncached(u, e, l)|
  {
    if Judge(e, l).Report? {
      var send := Send(e.id, Judge(e, l).status, Judge(e, l).runDone);
      LastOfAppend(s.sent, send, id);
      LastOfAppend(u, send, id);
    }
  }

  /** j is the next send for the run of i. */
  predicate NextSend(sent: seq<Send>, i: nat, j: nat) {
    i < j < |sent| && sent[i].id == sent[j].id && forall k :: i < k < j ==> sent[k].id != sent[j].id
  }

  lemma {:induction false} LastIs(sent: seq<Send>, i: nat, id: RunId)
    requires i < |sent| && sent[i].id == id && forall k :: i < k < |sent| ==> sent[k].id != id
    ensures Last(sent, id) == Some(sent[i])
  {
    if i < |sent| - 1 { LastIs(sent[..|sent| - 1], i, id); }
  }

  /** Two consecutive sends for a run carry the same status only if the run was found to be
      done at the first. */
  lemma {:induction false} NoRepeatUnlessDone(t: Trace, i: nat, j: nat)
    requires NextSend(Run(t).sent, i, j) && Run(t).sent[i].status == Run(t).sent[j].status
    ensures Run(t).sent[i].runDone
  {
    var init := t[..|t| - 1];
    var s, sent := Run(init), Run(t).sent;
    assert s.sent <= sent && |sent| <= |s.sent| + 1;
    assert forall k :: 0 <= k < |s.sent| ==> s.sent[k] == sent[k];
    if j < |s.sent| {
      assert NextSend(s.sent, i, j);
      NoRepeatUnlessDone(init, i, j);
    } else {
      RunKeepsCacheOk(init);
      LastIs(s.sent, i, sent[j].id);
    }
  }
}
