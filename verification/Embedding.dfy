/** Chunk, embed, and replace one source's points: the path resumes and transcripts share. */
module Embedding {
  import opened Basics
  import opened Encodings
  import opened Chunking
  import opened VectorStore
  import opened Externals

  /** `embed_chunks`: no call is made for an empty list. */
  function Vectors(ext: Externals, chunks: seq<string>): seq<Vector> {
    if chunks == [] then [] else ext.embed(chunks)
  }

  /** The points a text should be indexed by; none if the embedder answers with the
      wrong number of vectors, since the strict `zip` then raises before any write. */
  function SourcePoints(ext: Externals, org: Uuid, sourceType: string, sourceId: Uuid, candidateId: Uuid, text: string):
    (points: seq<Point>)
    ensures Numbered(points, sourceType, sourceId)
    ensures forall i :: 0 <= i < |points| ==> points[i].org == org
  {
    var chunks := Chunks(text);
    var vectors := Vectors(ext, chunks);
    if |vectors| != |chunks| then [] else ChunkPoints(org, sourceType, sourceId, candidateId, chunks, vectors)
  }

  /** The two kinds of source. */
  const RESUME := "resume"
  const TRANSCRIPT := "transcript"

  predicate Known(sourceType: string) {
    sourceType == RESUME || sourceType == TRANSCRIPT
  }

  datatype EmbedCalls = EmbedCalls(embed: Call, delete: Call, upsert: Call)

  /** The two calls on the index: delete the source's points, then upsert the new ones. */
  function Replaced(ix: Index, org: Uuid, sourceType: string, sourceId: Uuid, points: seq<Point>, calls: EmbedCalls):
    (Index, End)
  {
    var cleared := SourceDeleted(ix, org, sourceType, sourceId, calls.delete);
    if cleared.1 != Returned then cleared else Upserted(cleared.0, org, points, calls.upsert)
  }

  /** `_embed_and_upsert` */
  function SourceEmbedded(ix: Index, ext: Externals, org: Uuid, sourceType: string, sourceId: Uuid, candidateId: Uuid,
                          text: string, calls: EmbedCalls): (Index, End) {
    var chunks := Chunks(text);
    if chunks != [] && Ask(calls.embed) != Returned then (ix, Ask(calls.embed))
    else if |Vectors(ext, chunks)| != |chunks| then (ix, Raised)
    else
      Replaced(ix, org, sourceType, sourceId, SourcePoints(ext, org, sourceType, sourceId, candidateId, text), calls)
  }

  method EmbedAndUpsert(store: Qdrant, ext: Externals, org: Uuid, sourceType: string, sourceId: Uuid,
                        candidateId: Uuid, text: string, calls: EmbedCalls) returns (end: End)
    modifies store
    ensures (store.index, end)
            == SourceEmbedded(old(store.index), ext, org, sourceType, sourceId, candidateId, text, calls)
  {
    var chunking := ChunkText(text);
    var chunks := chunking.value;
    assert chunks == Chunks(text);
    var vectors: seq<Vector> := [];
    if chunks != [] {
      if Ask(calls.embed) != Returned {
        return Ask(calls.embed);
      }
      vectors := ext.embed(chunks);
    }
    if |vectors| != |chunks| {
      return Raised;
    }
    var points: seq<Point> := [];
    var index := 0;
    while index < |chunks|
      invariant 0 <= index <= |chunks|
      invariant points == ChunkPoints(org, sourceType, sourceId, candidateId, chunks, vectors)[..index]
    {
      points := points + [Point(org, sourceType, sourceId, candidateId, index, chunks[index], vectors[index])];
      index := index + 1;
    }
    assert points == SourcePoints(ext, org, sourceType, sourceId, candidateId, text);
    end := store.DeletePointsBySource(org, sourceType, sourceId, calls.delete);
    if end != Returned {
      return;
    }
    end := store.UpsertPoints(org, points, calls.upsert);
  }

  /** A write touches one collection, and only if it exists. */
  ghost predicate OnlyIn(ix: Index, jx: Index, org: Uuid) {
    && jx.Keys == ix.Keys
    && (forall n :: n in ix && n != CollectionName(org) ==> jx[n] == ix[n])
  }

  lemma {:induction false} WrittenEffect(ix: Index, org: Uuid, c: Collection, call: Call)
    ensures
      var (jx, end) := Written(ix, org, c, call);
      && OnlyIn(ix, jx, org)
      && (CollectionOf(jx, org) == CollectionOf(ix, org) || CollectionOf(jx, org) == c)
      && (end == Returned ==> CollectionName(org) in ix && CollectionOf(jx, org) == c)
  {
  }

  /** What one run can leave of a source: its old points, none, or exactly the new ones. */
  ghost predicate Left(was: Collection, now: Collection, points: seq<Point>) {
    now == was || now == map[] || now == PointMap(points)
  }

  /** The whole effect of one run: other collections are untouched; in this one the source
      ends with its old points, none, or exactly the new ones, and with the new ones
      whenever the call returns normally. */
  lemma {:induction false} EmbeddingOutcome(ix: Index, ext: Externals, org: Uuid, sourceType: string, sourceId: Uuid,
                                            candidateId: Uuid, text: string, calls: EmbedCalls)
    ensures
      var (jx, end) := SourceEmbedded(ix, ext, org, sourceType, sourceId, candidateId, text, calls);
      var was, now := PointsOf(CollectionOf(ix, org), sourceType, sourceId),
                      PointsOf(CollectionOf(jx, org), sourceType, sourceId);
      var points := SourcePoints(ext, org, sourceType, sourceId, candidateId, text);
      && OnlyIn(ix, jx, org)
      && Left(was, now, points)
      && (end == Returned ==>
            now == PointMap(points) && CollectionName(org) in ix
            && |Vectors(ext, Chunks(text))| == |Chunks(text)|)
  {
    var chunks := Chunks(text);
    var c := CollectionOf(ix, org);
    var points := SourcePoints(ext, org, sourceType, sourceId, candidateId, text);
    if (chunks == [] || Ask(calls.embed) == Returned) && |Vectors(ext, chunks)| == |chunks| {
      DeleteLeavesOthers(c, sourceType, sourceId, sourceType, sourceId);
      var bare := WithoutSource(c, sourceType, sourceId);
      WrittenEffect(ix, org, bare, calls.delete);
      var (jx, end) := SourceDeleted(ix, org, sourceType, sourceId, calls.delete);
      if end == Returned && points != [] {
        assert CollectionOf(jx, org) == bare;
        PutCompletes(bare, points, sourceType, sourceId);
        WrittenEffect(jx, org, PutPoints(bare, points), calls.upsert);
      }
    }
  }

  /** What a run does to its source in the index, by how its calls end. */
  datatype Write = NotTouched | NowEmpty | NowFull

  /** Of the two calls on the index, when there may be nothing to upsert. */
  function WriteOfCalls(ix: Index, org: Uuid, nothing: bool, calls: EmbedCalls): Write {
    if CollectionName(org) !in ix || calls.delete == Raises || calls.delete == Dies then NotTouched
    else if calls.delete == Works && (nothing || calls.upsert == Works || calls.upsert == RaisesLate) then NowFull
    else NowEmpty
  }

  /** Of the whole run. */
  function WriteOf(ix: Index, ext: Externals, org: Uuid, text: string, calls: EmbedCalls): Write {
    var chunks := Chunks(text);
    if (chunks != [] && calls.embed != Works) || |Vectors(ext, chunks)| != |chunks| then NotTouched
    else WriteOfCalls(ix, org, chunks == [], calls)
  }

  lemma {:induction false} ReplacedExactly(ix: Index, org: Uuid, sourceType: string, sourceId: Uuid, points: seq<Point>,
                                           calls: EmbedCalls)
    requires Numbered(points, sourceType, sourceId)
    ensures
      var (jx, end) := Replaced(ix, org, sourceType, sourceId, points, calls);
      var was, now := PointsOf(CollectionOf(ix, org), sourceType, sourceId),
                      PointsOf(CollectionOf(jx, org), sourceType, sourceId);
      && now == (match WriteOfCalls(ix, org, points == [], calls)
                 case NotTouched => was
                 case NowEmpty => map[]
                 case NowFull => PointMap(points))
      && (end == Returned <==>
            WriteOfCalls(ix, org, points == [], calls) == NowFull && (points == [] || calls.upsert == Works))
  {
    var bare := WithoutSource(CollectionOf(ix, org), sourceType, sourceId);
    DeleteLeavesOthers(CollectionOf(ix, org), sourceType, sourceId, sourceType, sourceId);
    if calls.delete == Works && CollectionName(org) in ix {
      var cleared := ix[CollectionName(org) := bare];
      assert SourceDeleted(ix, org, sourceType, sourceId, calls.delete) == (cleared, Returned);
      PutCompletes(bare, points, sourceType, sourceId);
      assert points == [] ==> PointMap(points) == map[];
    }
  }

  /** The exact effect of one run: which of the three it is, and when it returns. */
  lemma {:induction false} EmbeddingExactly(ix: Index, ext: Externals, org: Uuid, sourceType: string, sourceId: Uuid,
                                            candidateId: Uuid, text: string, calls: EmbedCalls)
    ensures
      var (jx, end) := SourceEmbedded(ix, ext, org, sourceType, sourceId, candidateId, text, calls);
      var was, now := PointsOf(CollectionOf(ix, org), sourceType, sourceId),
                      PointsOf(CollectionOf(jx, org), sourceType, sourceId);
      && now == (match WriteOf(ix, ext, org, text, calls)
                 case NotTouched => was
                 case NowEmpty => map[]
                 case NowFull => PointMap(SourcePoints(ext, org, sourceType, sourceId, candidateId, text)))
      && (end == Returned <==>
            WriteOf(ix, ext, org, text, calls) == NowFull && (Chunks(text) == [] || calls.upsert == Works))
      && (WriteOf(ix, ext, org, text, calls) == NowFull ==> |Vectors(ext, Chunks(text))| == |Chunks(text)|)
  {
    var chunks := Chunks(text);
    if (chunks == [] || calls.embed == Works) && |Vectors(ext, chunks)| == |chunks| {
      ReplacedExactly(ix, org, sourceType, sourceId, SourcePoints(ext, org, sourceType, sourceId, candidateId, text), calls);
    }
  }

  /** Other sources of the collection keep their points, whatever happens to the run. */
  lemma {:induction false} EmbeddingLeavesOthers(ix: Index, ext: Externals, org: Uuid, sourceType: string,
                                                 sourceId: Uuid,
                                                 candidateId: Uuid, text: string, calls: EmbedCalls,
                                                 otherType: string, otherId: Uuid)
    requires otherType != sourceType || otherId != sourceId
    requires WellKeyed(PointsOf(CollectionOf(ix, org), otherType, otherId))
    ensures
      var jx := SourceEmbedded(ix, ext, org, sourceType, sourceId, candidateId, text, calls).0;
      PointsOf(CollectionOf(jx, org), otherType, otherId) == PointsOf(CollectionOf(ix, org), otherType, otherId)
  {
    var c := CollectionOf(ix, org);
    var points := SourcePoints(ext, org, sourceType, sourceId, candidateId, text);
    var bare := WithoutSource(c, sourceType, sourceId);
    DeleteLeavesOthers(c, sourceType, sourceId, otherType, otherId);
    WrittenEffect(ix, org, bare, calls.delete);
    var (jx, end) := SourceDeleted(ix, org, sourceType, sourceId, calls.delete);
    if end == Returned {
      assert CollectionOf(jx, org) == bare;
      PutLeavesOthers(bare, points, sourceType, sourceId, otherType, otherId);
      WrittenEffect(jx, org, PutPoints(bare, points), calls.upsert);
    }
  }

  /** Every payload names this organization, and one of the two kinds of source. */
  ghost predicate OwnPoints(c: Collection, org: Uuid) {
    OwnPayloads(c, org) && forall k :: k in c ==> Known(c[k].sourceType)
  }

  /** The three contents a run can leave in its collection. */
  lemma {:induction false} EmbeddingLeaves(ix: Index, ext: Externals, org: Uuid, sourceType: string, sourceId: Uuid,
                                           candidateId: Uuid, text: string, calls: EmbedCalls)
    ensures
      var c := CollectionOf(ix, org);
      var bare := WithoutSource(c, sourceType, sourceId);
      CollectionOf(SourceEmbedded(ix, ext, org, sourceType, sourceId, candidateId, text, calls).0, org)
      in {c, bare, PutPoints(bare, SourcePoints(ext, org, sourceType, sourceId, candidateId, text))}
  {
    var bare := WithoutSource(CollectionOf(ix, org), sourceType, sourceId);
    var points := SourcePoints(ext, org, sourceType, sourceId, candidateId, text);
    var (jx, end) := SourceDeleted(ix, org, sourceType, sourceId, calls.delete);
    WrittenEffect(ix, org, bare, calls.delete);
    WrittenEffect(jx, org, PutPoints(CollectionOf(jx, org), points), calls.upsert);
  }

  lemma {:induction false} PutKeepsOwn(c: Collection, points: seq<Point>, org: Uuid)
    requires forall i :: 0 <= i < |points| ==> points[i].org == org
    requires OwnPayloads(c, org)
    ensures OwnPayloads(PutPoints(c, points), org)
    ensures (OwnPoints(c, org) && forall i :: 0 <= i < |points| ==> Known(points[i].sourceType)) ==>
      OwnPoints(PutPoints(c, points), org)
  {
    PutIsUnion(c, points);
    PointMapKeyed(points);
  }

  /** Whatever happens to a run, the points of its collection stay the organization's own. */
  lemma {:induction false} EmbeddingKeepsOwn(ix: Index, ext: Externals, org: Uuid, sourceType: string, sourceId: Uuid,
                                             candidateId: Uuid, text: string, calls: EmbedCalls)
    requires OwnPayloads(CollectionOf(ix, org), org)
    ensures
      var jx := SourceEmbedded(ix, ext, org, sourceType, sourceId, candidateId, text, calls).0;
      && OwnPayloads(CollectionOf(jx, org), org)
      && (OwnPoints(CollectionOf(ix, org), org) && Known(sourceType) ==> OwnPoints(CollectionOf(jx, org), org))
  {
    EmbeddingLeaves(ix, ext, org, sourceType, sourceId, candidateId, text, calls);
    PutKeepsOwn(WithoutSource(CollectionOf(ix, org), sourceType, sourceId),
                SourcePoints(ext, org, sourceType, sourceId, candidateId, text), org);
  }

  /** The points a text should be indexed by: one per chunk, at its position. */
  lemma {:induction false} SourcePointsOnePerChunk(ext: Externals, org: Uuid, sourceType: string, sourceId: Uuid,
                                                   candidateId: Uuid, text: string)
    requires |Vectors(ext, Chunks(text))| == |Chunks(text)|
    ensures
      var full := PointMap(SourcePoints(ext, org, sourceType, sourceId, candidateId, text));
      var chunks := Chunks(text);
      && |full| == |chunks|
      && forall i :: 0 <= i < |chunks| ==>
           PointId(sourceType, sourceId, i) in full
           && full[PointId(sourceType, sourceId, i)]
              == Point(org, sourceType, sourceId, candidateId, i, chunks[i], Vectors(ext, chunks)[i])
  {
    var points := SourcePoints(ext, org, sourceType, sourceId, candidateId, text);
    PointMapHolds(points, sourceType, sourceId);
    forall i | 0 <= i < |points|
      ensures PointId(sourceType, sourceId, i) in PointMap(points)
        && PointMap(points)[PointId(sourceType, sourceId, i)] == points[i]
    {
      assert IdOf(points[i]) == PointId(sourceType, sourceId, i);
    }
  }
}
