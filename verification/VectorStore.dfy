/** Qdrant: one collection per organization, points addressed by a deterministic id. */
module VectorStore {
  import opened Basics
  import opened Encodings

  type Vector = seq<real>

  datatype Point = Point(
    org: Uuid, sourceType: string, sourceId: Uuid, candidateId: Uuid,
    chunkIndex: nat, chunkText: string, vector: Vector)

  type Collection = map<string, Point>
  type Index = map<string, Collection>

  function IdOf(p: Point): string {
    PointId(p.sourceType, p.sourceId, p.chunkIndex)
  }

  predicate FromSource(p: Point, sourceType: string, sourceId: Uuid) {
    p.sourceType == sourceType && p.sourceId == sourceId
  }

  function PointsOf(c: Collection, sourceType: string, sourceId: Uuid): Collection {
    map k | k in c && FromSource(c[k], sourceType, sourceId) :: c[k]
  }

  function WithoutSource(c: Collection, sourceType: string, sourceId: Uuid): Collection {
    map k | k in c && !FromSource(c[k], sourceType, sourceId) :: c[k]
  }

  /** A batch upsert: points are written in order, under their own ids. */
  function PutPoints(c: Collection, points: seq<Point>): Collection {
    if points == [] then c else
      var last := points[|points| - 1];
      PutPoints(c, points[..|points| - 1])[IdOf(last) := last]
  }

  /** What a batch leaves in a collection that held nothing. */
  function PointMap(points: seq<Point>): Collection {
    PutPoints(map[], points)
  }

  /** The points `_embed_and_upsert` builds from its chunks. */
  function ChunkPoints(org: Uuid, sourceType: string, sourceId: Uuid, candidateId: Uuid,
                       chunks: seq<string>, vectors: seq<Vector>): (points: seq<Point>)
    requires |chunks| == |vectors|
    ensures |points| == |chunks|
    ensures forall i :: 0 <= i < |points| ==>
      points[i] == Point(org, sourceType, sourceId, candidateId, i, chunks[i], vectors[i])
  {
    seq(|chunks|, i requires 0 <= i < |chunks| =>
      Point(org, sourceType, sourceId, candidateId, i, chunks[i], vectors[i]))
  }

  /** Every point is stored under its own id. */
  ghost predicate WellKeyed(c: Collection) {
    forall k :: k in c ==> k == IdOf(c[k])
  }

  /** Every payload names the organization whose collection this is. */
  ghost predicate OwnPayloads(c: Collection, org: Uuid) {
    forall k :: k in c ==> c[k].org == org
  }

  ghost predicate Numbered(points: seq<Point>, sourceType: string, sourceId: Uuid) {
    forall i :: 0 <= i < |points| ==> FromSource(points[i], sourceType, sourceId) && points[i].chunkIndex == i
  }

  /** Exactly these points, one per position, and nothing else. */
  ghost predicate Holds(c: Collection, points: seq<Point>) {
    && (forall k :: k in c ==> exists i :: 0 <= i < |points| && k == IdOf(points[i]))
    && (forall i :: 0 <= i < |points| ==> IdOf(points[i]) in c && c[IdOf(points[i])] == points[i])
  }

  // ----- what a batch upsert does -----

  lemma {:induction false} PutIsUnion(c: Collection, points: seq<Point>)
    ensures PutPoints(c, points) == c + PointMap(points)
  {
    if points != [] {
      PutIsUnion(c, points[..|points| - 1]);
    }
  }

  lemma {:induction false} PointMapKeyed(points: seq<Point>)
    ensures WellKeyed(PointMap(points))
    ensures forall k :: k in PointMap(points) ==> PointMap(points)[k] in points
  {
    if points != [] {
      PointMapKeyed(points[..|points| - 1]);
    }
  }

  lemma {:induction false} HoldsOneMore(c: Collection, front: seq<Point>, last: Point)
    requires Holds(c, front)
    requires forall i :: 0 <= i < |front| ==> IdOf(front[i]) != IdOf(last)
    ensures Holds(c[IdOf(last) := last], front + [last])
    ensures |c[IdOf(last) := last]| == |c| + 1
  {
    var d, points := c[IdOf(last) := last], front + [last];
    assert points[|front|] == last;
    forall k | k in d
      ensures exists i :: 0 <= i < |points| && k == IdOf(points[i])
    {
      if k in c {
        var i :| 0 <= i < |front| && k == IdOf(front[i]);
        assert points[i] == front[i];
      } else {
        assert k == IdOf(points[|front|]);
      }
    }
    assert IdOf(last) !in c;
  }

  lemma {:induction false} NumberedDistinct(points: seq<Point>, sourceType: string, sourceId: Uuid, i: nat, j: nat)
    requires Numbered(points, sourceType, sourceId) && i < j < |points|
    ensures IdOf(points[i]) != IdOf(points[j])
  {
    if IdOf(points[i]) == IdOf(points[j]) {
      PointIdInjective(sourceType, sourceId, i, sourceType, sourceId, j);
    }
  }

  lemma {:induction false} PointMapLast(front: seq<Point>, last: Point)
    ensures PointMap(front + [last]) == PointMap(front)[IdOf(last) := last]
  {
    assert (front + [last])[..|front|] == front;
  }

  lemma {:induction false} HoldsSnoc(front: seq<Point>, last: Point, sourceType: string, sourceId: Uuid)
    requires Numbered(front + [last], sourceType, sourceId)
    requires Holds(PointMap(front), front) && |PointMap(front)| == |front|
    ensures Holds(PointMap(front + [last]), front + [last]) && |PointMap(front + [last])| == |front| + 1
  {
    var points := front + [last];
    forall i | 0 <= i < |front|
      ensures IdOf(front[i]) != IdOf(last)
    {
      assert points[i] == front[i] && points[|front|] == last;
      NumberedDistinct(points, sourceType, sourceId, i, |front|);
    }
    HoldsOneMore(PointMap(front), front, last);
    PointMapLast(front, last);
  }

  /** The chunks of one source never overwrite each other: one point per chunk, each
      at its own position. */
  lemma {:induction false} PointMapHolds(points: seq<Point>, sourceType: string, sourceId: Uuid)
    requires Numbered(points, sourceType, sourceId)
    ensures Holds(PointMap(points), points)
    ensures |PointMap(points)| == |points|
  {
    if points != [] {
      var n := |points| - 1;
      PointMapHolds(points[..n], sourceType, sourceId);
      assert points == points[..n] + [points[n]];
      HoldsSnoc(points[..n], points[n], sourceType, sourceId);
    }
  }

  lemma {:induction false} PutCompletes(c: Collection, points: seq<Point>, sourceType: string, sourceId: Uuid)
    requires Numbered(points, sourceType, sourceId)
    requires PointsOf(c, sourceType, sourceId).Keys <= PointMap(points).Keys
    ensures PointsOf(PutPoints(c, points), sourceType, sourceId) == PointMap(points)
  {
    PutIsUnion(c, points);
    PointMapKeyed(points);
    var r, pm := PutPoints(c, points), PointMap(points);
    forall k | k in r
      ensures k in PointsOf(r, sourceType, sourceId) <==> k in pm
    {
      if k !in pm {
        assert k in c && r[k] == c[k] && k !in PointsOf(c, sourceType, sourceId);
      }
    }
  }

  /** Writing one source's chunks leaves every other source's points alone. */
  lemma {:induction false} PutLeavesOthers(c: Collection, points: seq<Point>, sourceType: string, sourceId: Uuid,
                                           otherType: string, otherId: Uuid)
    requires Numbered(points, sourceType, sourceId) && WellKeyed(PointsOf(c, otherType, otherId))
    requires otherType != sourceType || otherId != sourceId
    ensures PointsOf(PutPoints(c, points), otherType, otherId) == PointsOf(c, otherType, otherId)
  {
    PutIsUnion(c, points);
    PointMapKeyed(points);
    var pm, others := PointMap(points), PointsOf(c, otherType, otherId);
    forall k | k in others
      ensures k !in pm
    {
      if k in pm {
        var p, q := others[k], pm[k];
        PointIdInjective(p.sourceType, p.sourceId, p.chunkIndex, q.sourceType, q.sourceId, q.chunkIndex);
      }
    }
    assert forall k :: k in pm ==> !FromSource(pm[k], otherType, otherId);
  }

  lemma {:induction false} DeleteLeavesOthers(c: Collection, sourceType: string, sourceId: Uuid,
                                              otherType: string, otherId: Uuid)
    ensures PointsOf(WithoutSource(c, sourceType, sourceId), sourceType, sourceId) == map[]
    ensures otherType != sourceType || otherId != sourceId ==>
      PointsOf(WithoutSource(c, sourceType, sourceId), otherType, otherId) == PointsOf(c, otherType, otherId)
  {
  }

  // ----- calls -----

  /** `provision_collection`: an existing collection is left as it is. */
  function Provisioned(ix: Index, org: Uuid, exists_: Call, create: Call): (Index, End) {
    if Ask(exists_) != Returned then (ix, Ask(exists_))
    else if CollectionName(org) in ix then (ix, Returned)
    else Perform(ix, ix[CollectionName(org) := map[]], create)
  }

  /** `delete_collection`: a missing collection is not an error. */
  function TornDown(ix: Index, org: Uuid, exists_: Call, delete: Call): (Index, End) {
    if Ask(exists_) != Returned then (ix, Ask(exists_))
    else if CollectionName(org) !in ix then (ix, Returned)
    else Perform(ix, ix - {CollectionName(org)}, delete)
  }

  /** A write to a collection that does not exist is an error. */
  function Written(ix: Index, org: Uuid, c: Collection, call: Call): (Index, End) {
    if CollectionName(org) in ix then Perform(ix, ix[CollectionName(org) := c], call)
    else (ix, if call == Dies then Lost else Raised)
  }

  /** Provisioning never loses a point, and tearing down removes one collection only; once
      either has returned, doing it again changes nothing. */
  lemma {:induction false} LifecycleCallsAreIdempotent(ix: Index, org: Uuid, exists_: Call, call: Call)
    ensures
      var (jx, end) := Provisioned(ix, org, exists_, call);
      && (forall n :: n in ix ==> n in jx && jx[n] == ix[n])
      && (forall n :: n in jx && n !in ix ==> n == CollectionName(org) && jx[n] == map[])
      && (end == Returned ==> CollectionName(org) in jx && Provisioned(jx, org, Works, call) == (jx, Returned))
    ensures
      var (jx, end) := TornDown(ix, org, exists_, call);
      && (forall n :: n in jx ==> n in ix && jx[n] == ix[n])
      && (forall n :: n in ix && n !in jx ==> n == CollectionName(org))
      && (end == Returned ==> CollectionName(org) !in jx && TornDown(jx, org, Works, call) == (jx, Returned))
  {
  }

  function CollectionOf(ix: Index, org: Uuid): Collection {
    if CollectionName(org) in ix then ix[CollectionName(org)] else map[]
  }

  /** `upsert_points`: nothing is sent for an empty list. */
  function Upserted(ix: Index, org: Uuid, points: seq<Point>, call: Call): (Index, End) {
    if points == [] then (ix, Returned)
    else Written(ix, org, PutPoints(CollectionOf(ix, org), points), call)
  }

  /** `delete_points_by_source` */
  function SourceDeleted(ix: Index, org: Uuid, sourceType: string, sourceId: Uuid, call: Call): (Index, End) {
    Written(ix, org, WithoutSource(CollectionOf(ix, org), sourceType, sourceId), call)
  }

  // ----- search -----

  /** One `FieldCondition`: a payload field and the value it must have. */
  datatype Condition = Condition(field: string, value: string)

  /** The payload fields a condition can name. */
  predicate Matches(p: Point, cond: Condition) {
    if cond.field == "organization_id" then UuidText(p.org) == cond.value
    else if cond.field == "source_type" then p.sourceType == cond.value
    else if cond.field == "source_id" then UuidText(p.sourceId) == cond.value
    else false
  }

  /** The points among which Qdrant ranks. */
  function Eligible(c: Collection, must: seq<Condition>): Collection {
    map k | k in c && (forall i :: 0 <= i < |must| ==> Matches(c[k], must[i])) :: c[k]
  }

  /** The points of one organization, and of one source type and source if given. */
  function Wanted(c: Collection, org: Uuid, sourceType: Option<string>, sourceId: Option<Uuid>): Collection {
    map k | k in c && c[k].org == org
      && (sourceType.Some? ==> c[k].sourceType == sourceType.value)
      && (sourceId.Some? ==> c[k].sourceId == sourceId.value) :: c[k]
  }

  /** The organization filter is redundant: it selects the same points as without it, all
      of them the organization's own, and a source filter selects that source's points. */
  lemma {:induction false} OrganizationFilterIsRedundant(c: Collection, org: Uuid, sourceType: string, sourceId: Uuid)
    requires OwnPayloads(c, org)
    ensures Wanted(c, org, None, None) == c
    ensures Wanted(c, org, Some(sourceType), None) == map k | k in c && c[k].sourceType == sourceType :: c[k]
    ensures Wanted(c, org, Some(sourceType), Some(sourceId)) == PointsOf(c, sourceType, sourceId)
  {
  }

  /** The list of conditions says what the arguments ask for. */
  lemma {:induction false} FilterMeaning(c: Collection, org: Uuid, sourceType: Option<string>, sourceId: Option<Uuid>,
                                         must: seq<Condition>)
    requires must == [Condition("organization_id", UuidText(org))]
      + (if sourceType.Some? then [Condition("source_type", sourceType.value)] else [])
      + (if sourceId.Some? then [Condition("source_id", UuidText(sourceId.value))] else [])
    ensures Eligible(c, must) == Wanted(c, org, sourceType, sourceId)
  {
    forall k | k in c
      ensures (forall i :: 0 <= i < |must| ==> Matches(c[k], must[i])) <==> k in Wanted(c, org, sourceType, sourceId)
    {
      var p := c[k];
      assert Matches(p, must[0]) <==> p.org == org by {
        if UuidText(p.org) == UuidText(org) { UuidTextInjective(p.org, org); }
      }
      if sourceType.Some? {
        assert must[1] == Condition("source_type", sourceType.value);
      }
      if sourceId.Some? {
        assert must[|must| - 1] == Condition("source_id", UuidText(sourceId.value));
        assert Matches(p, must[|must| - 1]) <==> p.sourceId == sourceId.value by {
          if UuidText(p.sourceId) == UuidText(sourceId.value) { UuidTextInjective(p.sourceId, sourceId.value); }
        }
      }
    }
  }

  /** The client wrapper. */
  class Qdrant {
    var index: Index

    constructor ()
      ensures index == map[]
    {
      index := map[];
    }

    method ProvisionCollection(org: Uuid, exists_: Call, create: Call) returns (end: End)
      modifies this
      ensures (index, end) == Provisioned(old(index), org, exists_, create)
    {
      if Ask(exists_) != Returned {
        return Ask(exists_);
      }
      var name := CollectionName(org);
      if name in index {
        return Returned;
      }
      var result := Perform(index, index[name := map[]], create);
      index := result.0;
      end := result.1;
    }

    method DeleteCollection(org: Uuid, exists_: Call, delete: Call) returns (end: End)
      modifies this
      ensures (index, end) == TornDown(old(index), org, exists_, delete)
    {
      if Ask(exists_) != Returned {
        return Ask(exists_);
      }
      var name := CollectionName(org);
      if name !in index {
        return Returned;
      }
      var result := Perform(index, index - {name}, delete);
      index := result.0;
      end := result.1;
    }

    method UpsertPoints(org: Uuid, points: seq<Point>, call: Call) returns (end: End)
      modifies this
      ensures (index, end) == Upserted(old(index), org, points, call)
    {
      if points == [] {
        return Returned;
      }
      var name := CollectionName(org);
      if name !in index {
        return if call == Dies then Lost else Raised;
      }
      // The server applies the batch one point at a time.
      var c := index[name];
      var n := 0;
      while n < |points|
        invariant 0 <= n <= |points|
        invariant c == PutPoints(index[name], points[..n])
      {
        c := c[IdOf(points[n]) := points[n]];
        n := n + 1;
        assert points[..n][..n - 1] == points[..n - 1];
      }
      assert points[..n] == points;
      var result := Perform(index, index[name := c], call);
      index := result.0;
      end := result.1;
    }

    method DeletePointsBySource(org: Uuid, sourceType: string, sourceId: Uuid, call: Call) returns (end: End)
      modifies this
      ensures (index, end) == SourceDeleted(old(index), org, sourceType, sourceId, call)
    {
      var name := CollectionName(org);
      if name !in index {
        return if call == Dies then Lost else Raised;
      }
      var kept := WithoutSource(index[name], sourceType, sourceId);
      var result := Perform(index, index[name := kept], call);
      index := result.0;
      end := result.1;
    }

    /** `search`, up to the ranking: the points that may be returned. */
    method Search(org: Uuid, sourceType: Option<string>, sourceId: Option<Uuid>, call: Call)
      returns (end: End, eligible: Collection)
      ensures end == (if CollectionName(org) in index then Ask(call) else if call == Dies then Lost else Raised)
      ensures eligible == if end == Returned then Wanted(index[CollectionName(org)], org, sourceType, sourceId) else map[]
    {
      var name := CollectionName(org);
      var must := [Condition("organization_id", UuidText(org))];
      if sourceType.Some? {
        must := must + [Condition("source_type", sourceType.value)];
      }
      if sourceId.Some? {
        must := must + [Condition("source_id", UuidText(sourceId.value))];
      }
      if name !in index {
        return if call == Dies then Lost else Raised, map[];
      }
      end := Ask(call);
      eligible := if end == Returned then Eligible(index[name], must) else map[];
      FilterMeaning(index[name], org, sourceType, sourceId, must);
    }
  }
}
