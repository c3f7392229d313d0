/** Keeping the latest version of each engine (internal/engine). Every node of a cluster runs
    a checker, and nothing keeps them apart: a check reads the table, asks the engine's
    endpoint and writes, with anything happening in between. */
module EngineVersions {
  import opened Prelude
  import opened Semver

  type Engine = string

  const DAY := 24 * 60 * 60

  /** A stored version and the time at which the database recorded it. */
  datatype Latest = Latest(version: string, checkpoint: int)

  type Table = map<Engine, Latest>

  /** The zero time, before any check. */
  const NEVER := -62135596800

  /** GetLatest: the default version with no checkpoint if nothing is stored. */
  function GetLatest(t: Table, defaults: map<Engine, string>, e: Engine): Latest
    requires e in defaults
  {
    if e in t then t[e] else Latest(defaults[e], NEVER)
  }

  /** One engine's check, undisturbed: when the checker's clock says `now` the endpoint returns `fetched`
      (None if that, or reading or writing the table, fails), and by the time the row is
      written the database's clock says `dbNow`. An endpoint that returns an older version is not believed. */
  function Check(cmp: Compare, t: Table, defaults: map<Engine, string>, e: Engine, now: int, fetched: Option<string>, dbNow: int): (Table, bool)
    requires e in defaults
  {
    var before := GetLatest(t, defaults, e);
    if before.checkpoint > now - DAY then (t, true)
    else if fetched.None? || cmp(fetched.value, before.version) < 0 then (t, false)
    else (t[e := Latest(fetched.value, dbNow)], true)
  }

  /** Within 86400 seconds of its checkpoint a row is left alone. After that it is written if
      the endpoint returns a version that is not older, and else the check fails. An engine
      without a row is due, and has its default version. */
  lemma CheckWritesIff(cmp: Compare, t: Table, defaults: map<Engine, string>, e: Engine, now: int, fetched: Option<string>, dbNow: int)
    requires e in defaults
    ensures e in t && now < t[e].checkpoint + 86400 ==> Check(cmp, t, defaults, e, now, fetched, dbNow) == (t, true)
    ensures e in t && now >= t[e].checkpoint + 86400 ==>
              Check(cmp, t, defaults, e, now, fetched, dbNow) ==
              if fetched.Some? && cmp(fetched.value, t[e].version) >= 0 then (t[e := Latest(fetched.value, dbNow)], true) else (t, false)
    ensures e !in t && now >= 0 ==>
              Check(cmp, t, defaults, e, now, fetched, dbNow) ==
              if fetched.Some? && cmp(fetched.value, defaults[e]) >= 0 then (t[e := Latest(fetched.value, dbNow)], true) else (t, false)
  {
  }

  /** What each engine's check meets in one round. */
  datatype Round = Round(now: Engine -> int, fetched: map<Engine, string>, dbNow: Engine -> int)

  ghost predicate ClocksOk(r: Round) { forall e: Engine :: r.now(e) <= r.dbNow(e) }

  function Fetched(r: Round, e: Engine): Option<string> { if e in r.fetched then Some(r.fetched[e]) else None }

  /** checkAndUpdateAll: engine by engine, giving up at the first error. */
  function CheckAll(cmp: Compare, t: Table, defaults: map<Engine, string>, engines: seq<Engine>, r: Round): Table
    requires forall e :: e in engines ==> e in defaults
    decreases |engines|
  {
    if engines == [] then t
    else
      var (t', ok) := Check(cmp, t, defaults, engines[0], r.now(engines[0]), Fetched(r, engines[0]), r.dbNow(engines[0]));
      if ok then CheckAll(cmp, t', defaults, engines[1..], r) else t'
  }

  function Run(cmp: Compare, defaults: map<Engine, string>, engines: seq<Engine>, rounds: seq<Round>): Table
    requires forall e :: e in engines ==> e in defaults
  {
    if rounds == [] then map[]
    else CheckAll(cmp, Run(cmp, defaults, engines, rounds[..|rounds| - 1]), defaults, engines, rounds[|rounds| - 1])
  }

  /** From one table to a later one, an engine's version has not gone down. */
  ghost predicate NotLower(cmp: Compare, defaults: map<Engine, string>, e: Engine, t: Table, t': Table)
    requires e in defaults
  {
    cmp(GetLatest(t, defaults, e).version, GetLatest(t', defaults, e).version) <= 0
  }

  /** Its row has stood still, or its checkpoint has moved on by at least a day. */
  ghost predicate DayApart(defaults: map<Engine, string>, e: Engine, t: Table, t': Table)
    requires e in defaults
  {
    var a, b := GetLatest(t, defaults, e), GetLatest(t', defaults, e);
    a == b || b.checkpoint >= a.checkpoint + 86400
  }

  lemma CheckAdvances(cmp: Compare, t: Table, defaults: map<Engine, string>, e: Engine, k: Engine, now: int, fetched: Option<string>, dbNow: int)
    requires TotalPreorder(cmp) && e in defaults && k in defaults
    ensures var t' := Check(cmp, t, defaults, e, now, fetched, dbNow).0;
            NotLower(cmp, defaults, k, t, t') && (now <= dbNow ==> DayApart(defaults, k, t, t'))
  {
    var v := GetLatest(t, defaults, k).version;
    assert cmp(v, v) <= 0 <==> cmp(v, v) >= 0;
    if fetched.Some? {
      var b := GetLatest(t, defaults, e).version;
      assert cmp(b, fetched.value) <= 0 <==> cmp(fetched.value, b) >= 0;
    }
  }

  lemma {:induction false} CheckAllAdvances(cmp: Compare, t: Table, defaults: map<Engine, string>, engines: seq<Engine>, r: Round, k: Engine)
    requires TotalPreorder(cmp) && k in defaults
    requires forall e :: e in engines ==> e in defaults
    ensures var t' := CheckAll(cmp, t, defaults, engines, r);
            NotLower(cmp, defaults, k, t, t') && (ClocksOk(r) ==> DayApart(defaults, k, t, t'))
    decreases |engines|
  {
    var v := GetLatest(t, defaults, k).version;
    assert cmp(v, v) <= 0 <==> cmp(v, v) >= 0;
    if engines != [] {
      var (t', ok) := Check(cmp, t, defaults, engines[0], r.now(engines[0]), Fetched(r, engines[0]), r.dbNow(engines[0]));
      CheckAdvances(cmp, t, defaults, engines[0], k, r.now(engines[0]), Fetched(r, engines[0]), r.dbNow(engines[0]));
      if ok {
        CheckAllAdvances(cmp, t', defaults, engines[1..], r, k);
      }
    }
  }

  /** Over any rounds of checks that do not overlap, whatever the clocks, between any two points in time an
      engine's stored version never goes down; the first point may be the start, where it is
      the default. */
  lemma {:induction false} VersionsNeverGoDown(cmp: Compare, defaults: map<Engine, string>, engines: seq<Engine>, rounds: seq<Round>, m: nat, k: Engine)
    requires TotalPreorder(cmp) && k in defaults && m <= |rounds|
    requires forall e :: e in engines ==> e in defaults
    ensures NotLower(cmp, defaults, k, Run(cmp, defaults, engines, rounds[..m]), Run(cmp, defaults, engines, rounds))
    decreases |rounds|
  {
    if m == |rounds| {
      assert rounds[..m] == rounds;
      var v := GetLatest(Run(cmp, defaults, engines, rounds), defaults, k).version;
      assert cmp(v, v) <= 0 <==> cmp(v, v) >= 0;
    } else {
      var init := rounds[..|rounds| - 1];
      VersionsNeverGoDown(cmp, defaults, engines, init, m, k);
      assert init[..m] == rounds[..m];
      CheckAllAdvances(cmp, Run(cmp, defaults, engines, init), defaults, engines, rounds[|rounds| - 1], k);
    }
  }

  /** In such rounds in which the database's clock is not behind the checker's, an engine's
      checkpoint moves on by at least 24 hours or not at all. */
  lemma {:induction false} CheckpointsADayApart(cmp: Compare, defaults: map<Engine, string>, engines: seq<Engine>, rounds: seq<Round>, m: nat, k: Engine)
    requires TotalPreorder(cmp) && k in defaults && m <= |rounds|
    requires forall e :: e in engines ==> e in defaults
    requires forall i :: m <= i < |rounds| ==> ClocksOk(rounds[i])
    ensures DayApart(defaults, k, Run(cmp, defaults, engines, rounds[..m]), Run(cmp, defaults, engines, rounds))
    decreases |rounds|
  {
    if m == |rounds| {
      assert rounds[..m] == rounds;
    } else {
      var init := rounds[..|rounds| - 1];
      CheckpointsADayApart(cmp, defaults, engines, init, m, k);
      assert init[..m] == rounds[..m];
      CheckAllAdvances(cmp, Run(cmp, defaults, engines, init), defaults, engines, rounds[|rounds| - 1], k);
    }
  }

  /* ---------- Overlapping checks ---------- */

  type CheckerId = nat

  /** A check that has read the row, found it due and not yet written. */
  datatype Started = Started(engine: Engine, before: Latest, now: int)

  datatype System = System(table: Table, started: map<CheckerId, Started>)

  /** A checker's steps. Anything that keeps a started check from writing is a write with
      nothing fetched. */
  datatype Step =
    | Read(checker: CheckerId, engine: Engine, now: int)
    | Write(checker: CheckerId, fetched: Option<string>, dbNow: int)

  function Row(s: System, defaults: map<Engine, string>, c: CheckerId): Latest
    requires c in s.started && s.started[c].engine in defaults
  {
    GetLatest(s.table, defaults, s.started[c].engine)
  }

  /** The write is made: it is compared with the row as it was read, not as it is. */
  predicate Written(cmp: Compare, s: System, step: Step) {
    && step.Write? && step.checker in s.started && step.fetched.Some?
    && cmp(step.fetched.value, s.started[step.checker].before.version) >= 0
  }

  function Next(cmp: Compare, defaults: map<Engine, string>, s: System, step: Step): System {
    match step
    case Read(c, e, now) =>
      if c in s.started || e !in defaults || GetLatest(s.table, defaults, e).checkpoint > now - DAY then s
      else s.(started := s.started[c := Started(e, GetLatest(s.table, defaults, e), now)])
    case Write(c, fetched, dbNow) =>
      if Written(cmp, s, step)
      then System(s.table[s.started[c].engine := Latest(fetched.value, dbNow)], s.started - {c})
      else s.(started := s.started - {c})
  }

  function After(cmp: Compare, defaults: map<Engine, string>, s: System, steps: seq<Step>): System {
    if steps == [] then s
    else Next(cmp, defaults, After(cmp, defaults, s, steps[..|steps| - 1]), steps[|steps| - 1])
  }

  /** From an empty table, any number of checkers taking steps in any order. */
  function Runs(cmp: Compare, defaults: map<Engine, string>, steps: seq<Step>): System {
    After(cmp, defaults, System(map[], map[]), steps)
  }

  /** Started checks are of known engines, whose rows were due. */
  ghost predicate StartedOk(defaults: map<Engine, string>, s: System) {
    forall c :: c in s.started ==> s.started[c].engine in defaults && s.started[c].before.checkpoint <= s.started[c].now - DAY
  }

  lemma {:induction false} RunsOk(cmp: Compare, defaults: map<Engine, string>, steps: seq<Step>)
    ensures StartedOk(defaults, Runs(cmp, defaults, steps))
  {
    if steps != [] { RunsOk(cmp, defaults, steps[..|steps| - 1]); }
  }

  /** A check by itself is its read followed by its write. */
  lemma CheckIsReadThenWrite(cmp: Compare, defaults: map<Engine, string>, s: System, c: CheckerId, e: Engine, now: int, fetched: Option<string>, dbNow: int)
    requires e in defaults && c !in s.started
    ensures Next(cmp, defaults, Next(cmp, defaults, s, Read(c, e, now)), Write(c, fetched, dbNow)) ==
            System(Check(cmp, s.table, defaults, e, now, fetched, dbNow).0, s.started)
  {
    var s1 := Next(cmp, defaults, s, Read(c, e, now));
    assert s1.started - {c} == s.started;
  }

  lemma {:induction false} AfterConcat(cmp: Compare, defaults: map<Engine, string>, s: System, a: seq<Step>, b: seq<Step>)
    ensures After(cmp, defaults, s, a + b) == After(cmp, defaults, After(cmp, defaults, s, a), b)
  {
    if b == [] {
      assert a + b == a;
    } else {
      AfterConcat(cmp, defaults, s, a, b[..|b| - 1]);
      assert (a + b)[..|a + b| - 1] == a + b[..|b| - 1];
    }
  }

  /** checkAndUpdateAll on one node: its own steps, and those that other nodes take while it
      waits for an engine's endpoint. It gives up at the first check that comes to nothing. */
  function Trace(cmp: Compare, defaults: map<Engine, string>, s: System, c: CheckerId, engines: seq<Engine>, r: Round,
                 meanwhile: Engine -> seq<Step>): seq<Step>
    decreases |engines|
  {
    if engines == [] then []
    else
      var e := engines[0];
      var read := [Read(c, e, r.now(e))];
      var s1 := After(cmp, defaults, s, read);
      var s2 := After(cmp, defaults, s1, meanwhile(e));
      if c !in s1.started then read + meanwhile(e) + Trace(cmp, defaults, s2, c, engines[1..], r, meanwhile)
      else
        var write := [Write(c, Fetched(r, e), r.dbNow(e))];
        read + meanwhile(e) + write
        + if Written(cmp, s2, write[0]) then Trace(cmp, defaults, After(cmp, defaults, s2, write), c, engines[1..], r, meanwhile) else []
  }

  lemma AfterParts(cmp: Compare, defaults: map<Engine, string>, s: System, a: seq<Step>, b: seq<Step>, c: seq<Step>, d: seq<Step>)
    ensures After(cmp, defaults, s, a + b + c + d) ==
            After(cmp, defaults, After(cmp, defaults, After(cmp, defaults, After(cmp, defaults, s, a), b), c), d)
  {
    AfterConcat(cmp, defaults, s, a + b + c, d);
    AfterConcat(cmp, defaults, s, a + b, c);
    AfterConcat(cmp, defaults, s, a, b);
  }

  lemma AfterOne(cmp: Compare, defaults: map<Engine, string>, s: System, step: Step)
    ensures After(cmp, defaults, s, [step]) == Next(cmp, defaults, s, step)
  {
    assert [step][..0] == [];
  }

  /** The loop on one node takes the system from its beginning to its end by that trace. */
  method CheckAndUpdateAll(cmp: Compare, defaults: map<Engine, string>, start: System, c: CheckerId, engines: seq<Engine>, r: Round,
                           meanwhile: Engine -> seq<Step>) returns (s: System)
    ensures s == After(cmp, defaults, start, Trace(cmp, defaults, start, c, engines, r, meanwhile))
  {
    s := start;
    assert engines[0..] == engines;
    for i := 0 to |engines|
      invariant After(cmp, defaults, s, Trace(cmp, defaults, s, c, engines[i..], r, meanwhile))
                == After(cmp, defaults, start, Trace(cmp, defaults, start, c, engines, r, meanwhile))
    {
      var e := engines[i];
      assert engines[i..][0] == e && engines[i..][1..] == engines[i + 1..];
      ghost var before := s;
      s := Next(cmp, defaults, s, Read(c, e, r.now(e)));
      AfterOne(cmp, defaults, before, Read(c, e, r.now(e)));
      var skipped := c !in s.started;
      s := After(cmp, defaults, s, meanwhile(e));
      if skipped {
        AfterParts(cmp, defaults, before, [Read(c, e, r.now(e))], meanwhile(e), Trace(cmp, defaults, s, c, engines[i + 1..], r, meanwhile), []);
        assert [Read(c, e, r.now(e))] + meanwhile(e) + Trace(cmp, defaults, s, c, engines[i + 1..], r, meanwhile) + []
            == [Read(c, e, r.now(e))] + meanwhile(e) + Trace(cmp, defaults, s, c, engines[i + 1..], r, meanwhile);
        continue;
      }
      var write := Write(c, Fetched(r, e), r.dbNow(e));
      var written := Written(cmp, s, write);
      AfterOne(cmp, defaults, s, write);
      s := Next(cmp, defaults, s, write);
      AfterParts(cmp, defaults, before, [Read(c, e, r.now(e))], meanwhile(e), [write],
                 if written then Trace(cmp, defaults, s, c, engines[i + 1..], r, meanwhile) else []);
      if !written {
        return;
      }
    }
  }

  function Nothing(e: Engine): seq<Step> { [] }

  /** Undisturbed, that is CheckAll. */
  lemma {:induction false} AloneIsCheckAll(cmp: Compare, defaults: map<Engine, string>, s: System, c: CheckerId, engines: seq<Engine>, r: Round)
    requires (forall e :: e in engines ==> e in defaults) && c !in s.started
    ensures After(cmp, defaults, s, Trace(cmp, defaults, s, c, engines, r, Nothing)) ==
            System(CheckAll(cmp, s.table, defaults, engines, r), s.started)
    decreases |engines|
  {
    if engines != [] {
      var e := engines[0];
      var read, write := Read(c, e, r.now(e)), Write(c, Fetched(r, e), r.dbNow(e));
      var s1 := Next(cmp, defaults, s, read);
      AfterOne(cmp, defaults, s, read);
      AfterOne(cmp, defaults, s1, write);
      CheckIsReadThenWrite(cmp, defaults, s, c, e, r.now(e), Fetched(r, e), r.dbNow(e));
      var s2 := Next(cmp, defaults, s1, write);
      if c !in s1.started {
        AloneIsCheckAll(cmp, defaults, s1, c, engines[1..], r);
        var rest := Trace(cmp, defaults, s1, c, engines[1..], r, Nothing);
        AfterConcat(cmp, defaults, s, [read] + [], rest);
        assert [read] + [] == [read];
      } else {
        var rest := if Written(cmp, s1, write) then Trace(cmp, defaults, s2, c, engines[1..], r, Nothing) else [];
        if Written(cmp, s1, write) { AloneIsCheckAll(cmp, defaults, s2, c, engines[1..], r); }
        AfterParts(cmp, defaults, s, [read], [], [write], rest);
      }
    }
  }

  /** The write is of an older version than the one stored by then. */
  predicate Lowers(cmp: Compare, defaults: map<Engine, string>, s: System, step: Step)
    requires step.Write? && step.checker in s.started ==> s.started[step.checker].engine in defaults
  {
    Written(cmp, s, step) && cmp(step.fetched.value, Row(s, defaults, step.checker).version) < 0
  }

  /** The write comes within a day of the checkpoint stored by then, and changes the row. */
  predicate TooSoon(cmp: Compare, defaults: map<Engine, string>, s: System, step: Step)
    requires step.Write? && step.checker in s.started ==> s.started[step.checker].engine in defaults
  {
    && Written(cmp, s, step)
    && Row(s, defaults, step.checker) != Latest(step.fetched.value, step.dbNow)
    && step.dbNow < Row(s, defaults, step.checker).checkpoint + 86400
  }

  /** A check whose row has not been written since it was read does neither, unless the
      database's clock is behind the checker's. */
  lemma UndisturbedWriteIsGood(cmp: Compare, defaults: map<Engine, string>, s: System, step: Step)
    requires StartedOk(defaults, s) && step.Write? && step.checker in s.started
    requires Row(s, defaults, step.checker) == s.started[step.checker].before
    ensures !Lowers(cmp, defaults, s, step)
    ensures s.started[step.checker].now <= step.dbNow ==> !TooSoon(cmp, defaults, s, step)
  {
  }

  ghost predicate NoneLower(cmp: Compare, defaults: map<Engine, string>, t: Table, t': Table) {
    forall k :: k in defaults ==> NotLower(cmp, defaults, k, t, t')
  }

  ghost predicate AllDayApart(defaults: map<Engine, string>, t: Table, t': Table) {
    forall k :: k in defaults ==> DayApart(defaults, k, t, t')
  }

  lemma SameIsNotLower(cmp: Compare, defaults: map<Engine, string>, t: Table)
    requires TotalPreorder(cmp)
    ensures NoneLower(cmp, defaults, t, t)
  {
    forall k | k in defaults ensures NotLower(cmp, defaults, k, t, t) {
      var v := GetLatest(t, defaults, k).version;
      assert cmp(v, v) <= 0 <==> cmp(v, v) >= 0;
    }
  }

  /** One step, from any state: exactly the writes of older versions lower a version, and
      exactly those that come too soon put checkpoints less than a day apart. */
  lemma StepIsGoodIff(cmp: Compare, defaults: map<Engine, string>, s: System, step: Step)
    requires TotalPreorder(cmp) && StartedOk(defaults, s)
    ensures NoneLower(cmp, defaults, s.table, Next(cmp, defaults, s, step).table) <==> !Lowers(cmp, defaults, s, step)
    ensures AllDayApart(defaults, s.table, Next(cmp, defaults, s, step).table) <==> !TooSoon(cmp, defaults, s, step)
  {
    SameIsNotLower(cmp, defaults, s.table);
    if Written(cmp, s, step) {
      var e, t' := s.started[step.checker].engine, Next(cmp, defaults, s, step).table;
      var was, is' := GetLatest(s.table, defaults, e), GetLatest(t', defaults, e);
      assert cmp(was.version, is'.version) <= 0 <==> cmp(is'.version, was.version) >= 0;
      assert forall k :: k in defaults && k != e ==> GetLatest(t', defaults, k) == GetLatest(s.table, defaults, k);
      assert NotLower(cmp, defaults, e, s.table, t') <==> !Lowers(cmp, defaults, s, step);
      assert DayApart(defaults, e, s.table, t') <==> !TooSoon(cmp, defaults, s, step);
      if NotLower(cmp, defaults, e, s.table, t') {
        forall k | k in defaults ensures NotLower(cmp, defaults, k, s.table, t') {
          assert NotLower(cmp, defaults, k, s.table, s.table);
        }
      }
    }
  }

  datatype Concern = Versions | Checkpoints

  ghost predicate GoodSteps(cmp: Compare, defaults: map<Engine, string>, steps: seq<Step>, concern: Concern) {
    forall n :: 0 <= n < |steps| ==> GoodAt(cmp, defaults, steps, n, concern)
  }

  /** Step n is not a write of an older version or, as far as checkpoints are concerned, not
      one that comes too soon. */
  ghost predicate GoodAt(cmp: Compare, defaults: map<Engine, string>, steps: seq<Step>, n: nat, concern: Concern)
    requires n < |steps|
  {
    var s := Runs(cmp, defaults, steps[..n]);
    StartedOk(defaults, s) && if concern.Checkpoints? then !TooSoon(cmp, defaults, s, steps[n]) else !Lowers(cmp, defaults, s, steps[n])
  }

  /** From any point of a run to any later one. */
  ghost predicate GoodBetween(cmp: Compare, defaults: map<Engine, string>, steps: seq<Step>, m: nat, n: nat, concern: Concern)
    requires m <= n <= |steps|
  {
    Good(cmp, defaults, Runs(cmp, defaults, steps[..m]).table, Runs(cmp, defaults, steps[..n]).table, concern)
  }

  ghost predicate Good(cmp: Compare, defaults: map<Engine, string>, t: Table, t': Table, concern: Concern) {
    if concern.Checkpoints? then AllDayApart(defaults, t, t') else NoneLower(cmp, defaults, t, t')
  }

  lemma GoodStepIff(cmp: Compare, defaults: map<Engine, string>, steps: seq<Step>, n: nat, concern: Concern)
    requires TotalPreorder(cmp) && n < |steps|
    ensures GoodBetween(cmp, defaults, steps, n, n + 1, concern) <==> GoodAt(cmp, defaults, steps, n, concern)
  {
    RunsOk(cmp, defaults, steps[..n]);
    assert steps[..n + 1][..n] == steps[..n];
    StepIsGoodIff(cmp, defaults, Runs(cmp, defaults, steps[..n]), steps[n]);
  }

  lemma {:induction false} GoodStepsAddUp(cmp: Compare, defaults: map<Engine, string>, steps: seq<Step>, m: nat, n: nat, concern: Concern)
    requires TotalPreorder(cmp) && m <= n <= |steps| && GoodSteps(cmp, defaults, steps, concern)
    ensures GoodBetween(cmp, defaults, steps, m, n, concern)
    decreases n
  {
    if m == n {
      SameIsGood(cmp, defaults, Runs(cmp, defaults, steps[..m]).table, concern);
    } else {
      GoodStepsAddUp(cmp, defaults, steps, m, n - 1, concern);
      assert GoodAt(cmp, defaults, steps, n - 1, concern);
      OneMoreGoodStep(cmp, defaults, steps, m, n, concern);
    }
  }

  lemma OneMoreGoodStep(cmp: Compare, defaults: map<Engine, string>, steps: seq<Step>, m: nat, n: nat, concern: Concern)
    requires TotalPreorder(cmp) && m < n <= |steps|
    requires GoodBetween(cmp, defaults, steps, m, n - 1, concern) && GoodAt(cmp, defaults, steps, n - 1, concern)
    ensures GoodBetween(cmp, defaults, steps, m, n, concern)
  {
    GoodStepIff(cmp, defaults, steps, n - 1, concern);
    GoodIsTransitive(cmp, defaults, Runs(cmp, defaults, steps[..m]).table, Runs(cmp, defaults, steps[..n - 1]).table,
                     Runs(cmp, defaults, steps[..n]).table, concern);
  }

  lemma SameIsGood(cmp: Compare, defaults: map<Engine, string>, t: Table, concern: Concern)
    requires TotalPreorder(cmp)
    ensures Good(cmp, defaults, t, t, concern)
  {
    SameIsNotLower(cmp, defaults, t);
  }

  lemma GoodIsTransitive(cmp: Compare, defaults: map<Engine, string>, a: Table, b: Table, c: Table, concern: Concern)
    requires TotalPreorder(cmp) && Good(cmp, defaults, a, b, concern) && Good(cmp, defaults, b, c, concern)
    ensures Good(cmp, defaults, a, c, concern)
  {
    forall k | k in defaults
      ensures if concern.Checkpoints? then DayApart(defaults, k, a, c) else NotLower(cmp, defaults, k, a, c)
    {
      if concern.Checkpoints? {
        assert DayApart(defaults, k, a, b) && DayApart(defaults, k, b, c);
      } else {
        assert NotLower(cmp, defaults, k, a, b) && NotLower(cmp, defaults, k, b, c);
      }
    }
  }

  lemma GoodRunIff(cmp: Compare, defaults: map<Engine, string>, steps: seq<Step>, concern: Concern)
    requires TotalPreorder(cmp)
    ensures (forall m: nat, n: nat :: m <= n <= |steps| ==> GoodBetween(cmp, defaults, steps, m, n, concern))
            <==> GoodSteps(cmp, defaults, steps, concern)
  {
    if GoodSteps(cmp, defaults, steps, concern) {
      forall m: nat, n: nat | m <= n <= |steps| ensures GoodBetween(cmp, defaults, steps, m, n, concern) {
        GoodStepsAddUp(cmp, defaults, steps, m, n, concern);
      }
    } else {
      var n :| 0 <= n < |steps| && !GoodAt(cmp, defaults, steps, n, concern);
      GoodStepIff(cmp, defaults, steps, n, concern);
      assert !GoodBetween(cmp, defaults, steps, n, n + 1, concern);
    }
  }

  /** However checks overlap, versions never go down from any point to any later one exactly
      when no write is of an older version than the one stored at that moment. */
  lemma VersionsNeverGoDownIff(cmp: Compare, defaults: map<Engine, string>, steps: seq<Step>)
    requires TotalPreorder(cmp)
    ensures (forall m: nat, n: nat :: m <= n <= |steps| ==> GoodBetween(cmp, defaults, steps, m, n, Versions))
            <==> GoodSteps(cmp, defaults, steps, Versions)
  {
    GoodRunIff(cmp, defaults, steps, Versions);
  }

  /** And checkpoints stand still or move on by a day exactly when no write that changes a row
      comes within a day of the checkpoint stored at that moment. */
  lemma CheckpointsADayApartIff(cmp: Compare, defaults: map<Engine, string>, steps: seq<Step>)
    requires TotalPreorder(cmp)
    ensures (forall m: nat, n: nat :: m <= n <= |steps| ==> GoodBetween(cmp, defaults, steps, m, n, Checkpoints))
            <==> GoodSteps(cmp, defaults, steps, Checkpoints)
  {
    GoodRunIff(cmp, defaults, steps, Checkpoints);
  }

  /** Two checkers that have read the same due row: the first writes a version, then the other
      writes the older one that it had fetched before. */
  lemma OverlappingChecksLower(cmp: Compare, defaults: map<Engine, string>, s: System, a: CheckerId, b: CheckerId, e: Engine,
                               now: int, older: string, newer: string, dbNow: int)
    requires TotalPreorder(cmp) && e in defaults && a != b && a !in s.started && b !in s.started
    requires var row := GetLatest(s.table, defaults, e);
             row.checkpoint <= now - DAY && cmp(older, row.version) >= 0 && cmp(newer, row.version) >= 0
    requires cmp(older, newer) < 0 && now <= dbNow
    ensures var both := Next(cmp, defaults, Next(cmp, defaults, s, Read(a, e, now)), Read(b, e, now));
            var first := Next(cmp, defaults, both, Write(a, Some(newer), dbNow));
            var second := Next(cmp, defaults, first, Write(b, Some(older), dbNow + 1));
            && !NotLower(cmp, defaults, e, first.table, second.table)
            && !DayApart(defaults, e, first.table, second.table)
  {
    assert cmp(newer, older) <= 0 <==> cmp(older, newer) >= 0;
  }
}
