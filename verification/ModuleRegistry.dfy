/** Publishing module versions (internal/module): rows for versions, tarballs beside them, and
    publishers that work on one version each, in any interleaving. */
module ModuleRegistry {
  import opened Prelude
  import opened Semver

  type VersionId = string

  datatype Status = Pending | CloneFailed | RegIngressFailed | StatusOk

  datatype ModuleVersion = ModuleVersion(moduleId: string, version: string, status: Status)

  /** `publishing` are the versions whose publisher has created the row and not finished. */
  datatype Registry = Registry(versions: map<VersionId, ModuleVersion>, tarballs: map<VersionId, string>, publishing: set<VersionId>)

  datatype Step =
    | CreateVersion(id: VersionId, moduleId: string, version: string)
    | TarballUnavailable(id: VersionId)
    | TarballInvalid(id: VersionId)
    | Upload(id: VersionId, tarball: string, commits: bool)
    | DeleteVersion(id: VersionId)

  /** updateModuleVersionStatus; there is nothing to update once the row is gone. */
  function SetStatus(r: Registry, id: VersionId, status: Status): Registry {
    if id in r.versions then r.(versions := r.versions[id := r.versions[id].(status := status)]) else r
  }

  /** saveTarball: at most one per version, and only for an existing version. */
  function SaveTarball(r: Registry, id: VersionId, tarball: string): (Registry, bool) {
    if id !in r.versions || id in r.tarballs then (r, false) else (r.(tarballs := r.tarballs[id := tarball]), true)
  }

  function Finish(r: Registry, id: VersionId): Registry { r.(publishing := r.publishing - {id}) }

  /** One step of some publisher, or the deletion of a version, which takes its tarball along.
      A version may not be created twice for a module; IDs are not reused. */
  function Apply(r: Registry, s: Step): Registry {
    match s
    case CreateVersion(id, moduleId, version) =>
      if id in r.versions || id in r.publishing || id in r.tarballs
         || exists k :: k in r.versions && r.versions[k].moduleId == moduleId && r.versions[k].version == version then r
      else r.(versions := r.versions[id := ModuleVersion(moduleId, version, Pending)], publishing := r.publishing + {id})
    case TarballUnavailable(id) => if id in r.publishing then Finish(SetStatus(r, id, CloneFailed), id) else r
    case TarballInvalid(id) => if id in r.publishing then Finish(SetStatus(r, id, RegIngressFailed), id) else r
    case Upload(id, tarball, commits) =>
      if id !in r.publishing then r
      else
        var (saved, ok) := SaveTarball(r, id, tarball);
        if ok && commits then Finish(SetStatus(saved, id, StatusOk), id) else Finish(r, id)
    case DeleteVersion(id) => r.(versions := r.versions - {id}, tarballs := r.tarballs - {id})
  }

  function Run(steps: seq<Step>): Registry {
    if steps == [] then Registry(map[], map[], {}) else Apply(Run(steps[..|steps| - 1]), steps[|steps| - 1])
  }

  ghost predicate Inv(r: Registry) {
    && (forall id :: id in r.tarballs <==> id in r.versions && r.versions[id].status == StatusOk)
    && (forall id :: id in r.publishing && id in r.versions ==> r.versions[id].status == Pending)
  }

  /** In every reachable state a version is ok exactly when its tarball is stored. */
  lemma {:induction false} OkIffStored(steps: seq<Step>)
    ensures Inv(Run(steps))
    ensures forall id :: id in Run(steps).versions && Run(steps).versions[id].status == StatusOk <==> id in Run(steps).tarballs
  {
    if steps != [] {
      OkIffStored(steps[..|steps| - 1]);
      var r, s := Run(steps[..|steps| - 1]), steps[|steps| - 1];
      assert Inv(Apply(r, s)) by {
        if s.Upload? && s.id in r.publishing { assert s.id in r.versions ==> s.id !in r.tarballs; }
      }
    }
  }

  lemma OneStepMore(steps: seq<Step>, step: Step)
    ensures Run(steps + [step]) == Apply(Run(steps), step)
  {
    assert (steps + [step])[..|steps|] == steps;
  }

  /** After any run, creating a version adds it as pending, unless the module has it. */
  lemma CreateAddsPending(steps: seq<Step>, id: VersionId, moduleId: string, version: string)
    requires var r := Run(steps); id !in r.versions && id !in r.publishing && id !in r.tarballs
    ensures var r, r' := Run(steps), Run(steps + [CreateVersion(id, moduleId, version)]);
            var duplicate := exists k :: k in r.versions && r.versions[k].moduleId == moduleId && r.versions[k].version == version;
            && (duplicate ==> r' == r)
            && (!duplicate ==>
                  && r'.versions == r.versions[id := ModuleVersion(moduleId, version, Pending)]
                  && r'.tarballs == r.tarballs && r'.publishing == r.publishing + {id})
  {
    OneStepMore(steps, CreateVersion(id, moduleId, version));
  }

  /** An upload that commits stores the tarball and makes the version ok, both or neither, and
      touches nothing else. */
  lemma UploadPublishes(steps: seq<Step>, id: VersionId, tarball: string, commits: bool)
    requires id in Run(steps).publishing && id in Run(steps).versions
    ensures var r, r' := Run(steps), Run(steps + [Upload(id, tarball, commits)]);
            && (commits ==> r'.tarballs == r.tarballs[id := tarball])
            && (commits ==> r'.versions == r.versions[id := ModuleVersion(r.versions[id].moduleId, r.versions[id].version, StatusOk)])
            && (!commits ==> r'.tarballs == r.tarballs && r'.versions == r.versions)
            && r'.publishing == r.publishing - {id}
  {
    OneStepMore(steps, Upload(id, tarball, commits));
    OkIffStored(steps);
  }

  /** A tarball that cannot be had or is no module leaves its version failed, and nothing stored. */
  lemma FailureIsRecorded(steps: seq<Step>, id: VersionId, step: Step)
    requires id in Run(steps).publishing && id in Run(steps).versions
    requires step == TarballUnavailable(id) || step == TarballInvalid(id)
    ensures var r, r' := Run(steps), Run(steps + [step]);
            && r'.tarballs == r.tarballs && r'.publishing == r.publishing - {id}
            && r'.versions == r.versions[id := ModuleVersion(r.versions[id].moduleId, r.versions[id].version,
                                                             if step.TarballUnavailable? then CloneFailed else RegIngressFailed)]
  {
    OneStepMore(steps, step);
  }

  /** Nobody else's steps count: only a version's publisher decides its fate, once. */
  lemma OnlyPublishersFinish(steps: seq<Step>, id: VersionId, step: Step)
    requires id !in Run(steps).publishing
    requires step == TarballUnavailable(id) || step == TarballInvalid(id) || (step.Upload? && step.id == id)
    ensures Run(steps + [step]) == Run(steps)
  {
    OneStepMore(steps, step);
  }

  /** Deleting a version takes its tarball along, and nothing else. */
  lemma DeleteTakesTarball(steps: seq<Step>, id: VersionId)
    ensures var r, r' := Run(steps), Run(steps + [DeleteVersion(id)]);
            r'.versions == r.versions - {id} && r'.tarballs == r.tarballs - {id} && r'.publishing == r.publishing
  {
    OneStepMore(steps, DeleteVersion(id));
  }

  /** So a version that was created and uploaded is available in any listing that has it, and
      what can be downloaded is what was uploaded. */
  lemma UploadedIsAvailable(steps: seq<Step>, id: VersionId, tarball: string, rows: seq<Row>)
    requires id in Run(steps).publishing && id in Run(steps).versions
    requires var r := Run(steps + [Upload(id, tarball, true)]); id in r.versions && (id, r.versions[id]) in rows
    ensures var r := Run(steps + [Upload(id, tarball, true)]);
            (id, r.versions[id]) in Available(rows) && id in r.tarballs && r.tarballs[id] == tarball
  {
    UploadPublishes(steps, id, tarball, true);
    AvailableHas(rows, (id, Run(steps + [Upload(id, tarball, true)]).versions[id]));
  }

  lemma {:induction false} AvailableHas(rows: seq<Row>, v: Row)
    ensures v in Available(rows) <==> v in rows && v.1.status == StatusOk
  {
    if rows != [] {
      AvailableHas(rows[..|rows| - 1], v);
      assert rows == rows[..|rows| - 1] + [rows[|rows| - 1]];
    }
  }

  /* ---------- A module's versions ---------- */

  type Row = (VersionId, ModuleVersion)

  ghost predicate IsDescending(cmp: Compare, rows: seq<Row>) {
    forall i, j :: 0 <= i < j < |rows| ==> cmp(rows[i].1.version, rows[j].1.version) >= 0
  }

  /** What scanModule leaves in a module: the rows of the query, sorted in descending order. */
  ghost predicate IsScanned(cmp: Compare, rows: seq<Row>, versions: seq<Row>) {
    IsDescending(cmp, versions) && multiset(versions) == multiset(rows)
  }

  lemma SameMembers(a: seq<Row>, b: seq<Row>)
    requires multiset(a) == multiset(b)
    ensures forall v :: v in a <==> v in b
  {
    assert forall v :: v in a <==> v in multiset(a);
    assert forall v :: v in b <==> v in multiset(b);
  }

  lemma FirstOkIsGreatest(cmp: Compare, sorted: seq<Row>, i: nat, v: Row)
    requires TotalPreorder(cmp) && IsDescending(cmp, sorted) && i < |sorted|
    requires forall k :: 0 <= k < i ==> sorted[k].1.status != StatusOk
    requires v in sorted && v.1.status == StatusOk
    ensures cmp(sorted[i].1.version, v.1.version) >= 0
  {
    var k :| 0 <= k < |sorted| && sorted[k] == v;
    if k == i { assert cmp(v.1.version, v.1.version) <= 0 <==> cmp(v.1.version, v.1.version) >= 0; }
  }

  function Available(rows: seq<Row>): seq<Row> {
    if rows == [] then []
    else if rows[|rows| - 1].1.status == StatusOk then Available(rows[..|rows| - 1]) + [rows[|rows| - 1]]
    else Available(rows[..|rows| - 1])
  }

  method AvailableVersions(rows: seq<Row>) returns (avail: seq<Row>)
    ensures avail == Available(rows)
    ensures forall v :: v in avail <==> v in rows && v.1.status == StatusOk
  {
    avail := [];
    for i := 0 to |rows|
      invariant avail == Available(rows[..i])
      invariant forall v :: v in avail <==> v in rows[..i] && v.1.status == StatusOk
    {
      assert rows[..i + 1][..i] == rows[..i] && rows[..i + 1] == rows[..i] + [rows[i]];
      if rows[i].1.status == StatusOk {
        avail := avail + [rows[i]];
      }
    }
    assert rows[..|rows|] == rows;
  }

  /** Latest is the head of the available versions of a scanned module, and no ok version of
      it is greater. */
  method Latest(cmp: Compare, ghost rows: seq<Row>, versions: seq<Row>) returns (latest: Option<Row>)
    requires TotalPreorder(cmp) && IsScanned(cmp, rows, versions)
    ensures latest == if Available(versions) == [] then None else Some(Available(versions)[0])
    ensures latest.None? ==> forall v :: v in rows ==> v.1.status != StatusOk
    ensures latest.Some? ==> latest.value in rows && latest.value.1.status == StatusOk
    ensures latest.Some? ==> forall v :: v in rows && v.1.status == StatusOk ==> cmp(latest.value.1.version, v.1.version) >= 0
  {
    SameMembers(rows, versions);
    var i := FirstOk(versions);
    if i == |versions| {
      NoneAvailable(versions);
      return None;
    }
    FirstAvailable(versions, i);
    forall v | v in rows && v.1.status == StatusOk ensures cmp(versions[i].1.version, v.1.version) >= 0 {
      FirstOkIsGreatest(cmp, versions, i, v);
    }
    return Some(versions[i]);
  }

  /** Latest's search; the length of the list if there is none. */
  method FirstOk(rows: seq<Row>) returns (i: nat)
    ensures i <= |rows| && (i < |rows| ==> rows[i].1.status == StatusOk)
    ensures forall k :: 0 <= k < i ==> rows[k].1.status != StatusOk
  {
    i := 0;
    while i < |rows| && rows[i].1.status != StatusOk
      invariant i <= |rows| && forall k :: 0 <= k < i ==> rows[k].1.status != StatusOk
    {
      i := i + 1;
    }
  }

  lemma {:induction false} FirstAvailable(rows: seq<Row>, i: nat)
    requires i < |rows| && rows[i].1.status == StatusOk && forall k :: 0 <= k < i ==> rows[k].1.status != StatusOk
    ensures Available(rows) != [] && Available(rows)[0] == rows[i]
  {
    var n := |rows| - 1;
    if i < n {
      FirstAvailable(rows[..n], i);
    } else {
      NoneAvailable(rows[..n]);
    }
  }

  lemma {:induction false} NoneAvailable(rows: seq<Row>)
    requires forall k :: 0 <= k < |rows| ==> rows[k].1.status != StatusOk
    ensures Available(rows) == []
  {
    if rows != [] { NoneAvailable(rows[..|rows| - 1]); }
  }

  /** So whatever has been published and deleted, in whatever order, every available version
      of any listing of a module can be downloaded. */
  lemma AvailableIsDownloadable(steps: seq<Step>, rows: seq<Row>, v: Row)
    requires forall r :: r in rows ==> r.0 in Run(steps).versions && Run(steps).versions[r.0] == r.1
    requires v in Available(rows)
    ensures v.0 in Run(steps).tarballs
  {
    OkIffStored(steps);
    AvailableAreOk(rows, v);
  }

  lemma {:induction false} AvailableAreOk(rows: seq<Row>, v: Row)
    requires v in Available(rows)
    ensures v in rows && v.1.status == StatusOk
  {
    if v != rows[|rows| - 1] || rows[|rows| - 1].1.status != StatusOk { AvailableAreOk(rows[..|rows| - 1], v); }
  }
}
