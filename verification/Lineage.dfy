/** The ancestors of a resource (internal/authz/authorizer.go, internal/authz/request.go). */
module Lineage {
  import opened Prelude

  type Kind = string

  datatype ID = ID(kind: Kind, id: string)

  type Resolvers = map<Kind, ID -> Result<ID>>

  const SITE := ID("site", "site")

  /** Resolving a parent always leads to a kind of lower rank. */
  ghost predicate Descends(resolvers: Resolvers, rank: Kind -> nat) {
    forall k: Kind, id: ID :: k in resolvers && id.kind == k && resolvers[k](id).Ok? ==> rank(resolvers[k](id).value.kind) < rank(k)
  }

  /** Each element is the parent of the one before it, and the last has no resolver. */
  ghost predicate IsLineage(resolvers: Resolvers, id: ID, lineage: seq<ID>)
    decreases |lineage|
  {
    if id.kind !in resolvers then lineage == []
    else lineage != [] && resolvers[id.kind](id) == Ok(lineage[0]) && IsLineage(resolvers, lineage[0], lineage[1..])
  }

  datatype Request = Request(id: ID, lineage: seq<ID>)
  {
    function All(): seq<ID> { [id] + lineage }

    /** The search that Organization and Workspace make. */
    function Nearest(kind: Kind): Option<ID> {
      if id.kind == kind then Some(id) else First(lineage, kind)
    }
  }

  function First(ids: seq<ID>, kind: Kind): Option<ID> {
    if ids == [] then None else if ids[0].kind == kind then Some(ids[0]) else First(ids[1..], kind)
  }

  lemma {:induction false} LineageExtends(resolvers: Resolvers, id: ID, lineage: seq<ID>, rest: seq<ID>)
    requires ChainTo(resolvers, id, lineage)
    requires IsLineage(resolvers, if lineage == [] then id else lineage[|lineage| - 1], rest)
    ensures IsLineage(resolvers, id, lineage + rest)
    decreases |lineage|
  {
    if lineage == [] {
      assert lineage + rest == rest;
    } else {
      LineageExtends(resolvers, lineage[0], lineage[1..], rest);
      assert (lineage + rest)[1..] == lineage[1..] + rest;
    }
  }

  /** Successive parents, so far. */
  ghost predicate ChainTo(resolvers: Resolvers, id: ID, lineage: seq<ID>)
    decreases |lineage|
  {
    lineage == []
    || (id.kind in resolvers && resolvers[id.kind](id) == Ok(lineage[0]) && ChainTo(resolvers, lineage[0], lineage[1..]))
  }

  lemma {:induction false} ChainGrows(resolvers: Resolvers, id: ID, lineage: seq<ID>, parent: ID)
    requires ChainTo(resolvers, id, lineage)
    requires var last := if lineage == [] then id else lineage[|lineage| - 1];
             last.kind in resolvers && resolvers[last.kind](last) == Ok(parent)
    ensures ChainTo(resolvers, id, lineage + [parent])
    decreases |lineage|
  {
    if lineage != [] {
      ChainGrows(resolvers, lineage[0], lineage[1..], parent);
      assert (lineage + [parent])[1..] == lineage[1..] + [parent];
    }
  }

  /** The lookup of the parent of the last element fails. */
  ghost predicate FailsAfter(resolvers: Resolvers, id: ID, lineage: seq<ID>) {
    && ChainTo(resolvers, id, lineage)
    && var last := if lineage == [] then id else lineage[|lineage| - 1];
       last.kind in resolvers && resolvers[last.kind](last).Err?
  }

  lemma {:induction false} NoFailureBeforeEnd(resolvers: Resolvers, id: ID, reached: seq<ID>, lineage: seq<ID>)
    requires IsLineage(resolvers, id, lineage)
    ensures !FailsAfter(resolvers, id, reached)
    decreases |reached|
  {
    if reached != [] && ChainTo(resolvers, id, reached) {
      NoFailureBeforeEnd(resolvers, reached[0], reached[1..], lineage[1..]);
    }
  }

  /** generateRequest's loop: it terminates, and collects exactly the chain of parents if
      there is one; it fails exactly when the lookup of an ancestor fails. */
  method GenerateRequest(resolvers: Resolvers, resource: ID, ghost rank: Kind -> nat) returns (r: Result<Request>)
    requires Descends(resolvers, rank)
    ensures r.Err? <==> resource != ID("site", "site") && exists reached :: FailsAfter(resolvers, resource, reached)
    ensures r.Ok? ==> r.value.id == resource
    ensures r.Ok? && resource != SITE ==> IsLineage(resolvers, resource, r.value.lineage)
    ensures r.Ok? && resource == SITE ==> r.value.lineage == []
  {
    if resource == SITE {
      return Ok(Request(resource, []));
    }
    var id, lineage := resource, [];
    while id.kind in resolvers
      invariant ChainTo(resolvers, resource, lineage)
      invariant id == if lineage == [] then resource else lineage[|lineage| - 1]
      decreases rank(id.kind)
    {
      var parent := resolvers[id.kind](id);
      if parent.Err? {
        assert FailsAfter(resolvers, resource, lineage);
        return Err("resolving ID");
      }
      ChainGrows(resolvers, resource, lineage, parent.value);
      lineage := lineage + [parent.value];
      id := parent.value;
    }
    LineageExtends(resolvers, resource, lineage, []);
    assert lineage + [] == lineage;
    forall reached ensures !FailsAfter(resolvers, resource, reached) { NoFailureBeforeEnd(resolvers, resource, reached, lineage); }
    return Ok(Request(resource, lineage));
  }

  lemma {:induction false} RanksFall(resolvers: Resolvers, rank: Kind -> nat, id: ID, lineage: seq<ID>, i: nat)
    requires Descends(resolvers, rank) && IsLineage(resolvers, id, lineage) && i < |lineage|
    ensures rank(lineage[i].kind) < rank(id.kind)
    decreases |lineage|
  {
    if i > 0 { RanksFall(resolvers, rank, lineage[0], lineage[1..], i - 1); }
  }

  /** No kind occurs twice in a resource and its ancestors. */
  lemma {:induction false} KindsAreDistinct(resolvers: Resolvers, rank: Kind -> nat, id: ID, lineage: seq<ID>, i: nat, j: nat)
    requires Descends(resolvers, rank) && IsLineage(resolvers, id, lineage)
    requires i < j < |[id] + lineage|
    ensures ([id] + lineage)[i].kind != ([id] + lineage)[j].kind
    decreases |lineage|
  {
    if i == 0 {
      RanksFall(resolvers, rank, id, lineage, j - 1);
    } else {
      KindsAreDistinct(resolvers, rank, lineage[0], lineage[1..], i - 1, j - 1);
      assert [lineage[0]] + lineage[1..] == lineage;
    }
  }

  lemma {:induction false} FirstFinds(ids: seq<ID>, kind: Kind)
    ensures First(ids, kind).Some? ==> First(ids, kind).value in ids && First(ids, kind).value.kind == kind
    ensures First(ids, kind).None? ==> forall x :: x in ids ==> x.kind != kind
    decreases |ids|
  {
    if ids != [] { FirstFinds(ids[1..], kind); }
  }

  /** Organization and Workspace return the one element of that kind among the resource and
      its ancestors, if there is one. */
  lemma NearestIsTheOnly(resolvers: Resolvers, rank: Kind -> nat, req: Request, kind: Kind)
    requires Descends(resolvers, rank) && IsLineage(resolvers, req.id, req.lineage)
    ensures forall x :: x in req.All() && x.kind == kind <==> req.Nearest(kind) == Some(x)
  {
    FirstFinds(req.lineage, kind);
    var all := req.All();
    forall x ensures x in all && x.kind == kind <==> req.Nearest(kind) == Some(x) {
      assert x in all <==> x == req.id || x in req.lineage;
      if x in all && x.kind == kind && req.Nearest(kind).Some? {
        var y := req.Nearest(kind).value;
        assert y in all;
        var i :| 0 <= i < |all| && all[i] == x;
        var j :| 0 <= j < |all| && all[j] == y;
        if i < j { KindsAreDistinct(resolvers, rank, req.id, req.lineage, i, j); }
        if j < i { KindsAreDistinct(resolvers, rank, req.id, req.lineage, j, i); }
      }
    }
  }
}
