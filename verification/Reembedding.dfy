/** Re-embedding under at-least-once delivery: any number of runs for any number of
    sources, each with the text it has read, their index operations interleaved freely,
    some lost between the two. */
module Reembedding {
  import opened Basics
  import opened Encodings
  import opened VectorStore
  import opened Externals
  import opened Embedding
  import Chunking

  datatype Source = Source(sourceType: string, id: Uuid)

  /** A run has read its text, has cleared the source, or is finished, failed or lost. */
  datatype Phase = Started | Cleared | Over
  datatype Run = Run(source: Source, candidate: Uuid, text: string, phase: Phase)

  /** The collection, the runs, and for each source that was ever cleared the points
      upserted since the latest deletion that took effect, in order. */
  datatype State = State(points: Collection, runs: map<nat, Run>, layers: map<Source, seq<seq<Point>>>)

  datatype Event =
    | Start(run: nat, source: Source, candidate: Uuid, text: string)
    | Delete(run: nat, call: Call)
    | Upsert(run: nat, call: Call)
    | Crash(run: nat)

  function Of(c: Collection, s: Source): Collection {
    PointsOf(c, s.sourceType, s.id)
  }

  /** What a run writes: the points of the text it has read. */
  function PointsToWrite(ext: Externals, org: Uuid, r: Run): (points: seq<Point>)
    ensures Numbered(points, r.source.sourceType, r.source.id)
  {
    SourcePoints(ext, org, r.source.sourceType, r.source.id, r.candidate, r.text)
  }

  predicate Effective(call: Call) {
    call == Works || call == RaisesLate
  }

  function LayersOf(st: State, s: Source): seq<seq<Point>> {
    if s in st.layers then st.layers[s] else []
  }

  function Apply(ext: Externals, org: Uuid, st: State, e: Event): State {
    match e
    case Start(k, s, candidate, text) =>
      if k in st.runs then st else st.(runs := st.runs[k := Run(s, candidate, text, Started)])
    case Delete(k, call) =>
      if k !in st.runs || st.runs[k].phase != Started then st else
        var r := st.runs[k];
        var ended := st.(runs := st.runs[k := r.(phase := if call == Works then Cleared else Over)]);
        if !Effective(call) then ended
        else ended.(points := WithoutSource(st.points, r.source.sourceType, r.source.id), layers := st.layers[r.source := []])
    case Upsert(k, call) =>
      if k !in st.runs || st.runs[k].phase != Cleared then st else
        var r := st.runs[k];
        var ended := st.(runs := st.runs[k := r.(phase := Over)]);
        if !Effective(call) then ended
        else
          var points := PointsToWrite(ext, org, r);
          ended.(points := PutPoints(st.points, points), layers := st.layers[r.source := LayersOf(st, r.source) + [points]])
    case Crash(k) => if k in st.runs then st.(runs := st.runs[k := st.runs[k].(phase := Over)]) else st
  }

  function ApplyAll(ext: Externals, org: Uuid, st: State, events: seq<Event>): State
    decreases |events|
  {
    if events == [] then st else ApplyAll(ext, org, Apply(ext, org, st, events[0]), events[1..])
  }

  function Fresh(c: Collection): State {
    State(c, map[], map[])
  }

  // ----- layers -----

  /** Upserts on top of each other, later ones winning. */
  function Layered(layers: seq<seq<Point>>): Collection {
    if layers == [] then map[] else Layered(layers[..|layers| - 1]) + PointMap(layers[|layers| - 1])
  }

  ghost predicate AllNumbered(layers: seq<seq<Point>>, s: Source) {
    forall i :: 0 <= i < |layers| ==> Numbered(layers[i], s.sourceType, s.id)
  }

  lemma {:induction false} LayeredKeyed(layers: seq<seq<Point>>)
    ensures WellKeyed(Layered(layers))
  {
    if layers != [] {
      LayeredKeyed(layers[..|layers| - 1]);
      PointMapKeyed(layers[|layers| - 1]);
    }
  }

  lemma {:induction false} OneLayerMore(layers: seq<seq<Point>>, points: seq<Point>)
    ensures Layered(layers + [points]) == Layered(layers) + PointMap(points)
  {
    assert (layers + [points])[..|layers|] == layers;
  }

  /** Which ids a source's points have. */
  lemma {:induction false} NumberedKeys(points: seq<Point>, s: Source, i: nat)
    requires Numbered(points, s.sourceType, s.id)
    ensures PointId(s.sourceType, s.id, i) in PointMap(points) <==> i < |points|
  {
    PointMapHolds(points, s.sourceType, s.id);
    if i < |points| {
      assert IdOf(points[i]) == PointId(s.sourceType, s.id, i);
    } else if PointId(s.sourceType, s.id, i) in PointMap(points) {
      var j :| 0 <= j < |points| && PointId(s.sourceType, s.id, i) == IdOf(points[j]);
      PointIdInjective(s.sourceType, s.id, i, s.sourceType, s.id, j);
    }
  }

  lemma {:induction false} LayeredKeys(layers: seq<seq<Point>>, s: Source, i: nat)
    requires AllNumbered(layers, s)
    ensures PointId(s.sourceType, s.id, i) in Layered(layers) <==> exists j :: 0 <= j < |layers| && i < |layers[j]|
  {
    if layers != [] {
      var n := |layers| - 1;
      LayeredKeys(layers[..n], s, i);
      NumberedKeys(layers[n], s, i);
      assert layers == layers[..n] + [layers[n]];
    }
  }

  /** Every id in the layers is that of some chunk position. */
  lemma {:induction false} LayeredIds(layers: seq<seq<Point>>, s: Source, k: string) returns (i: nat)
    requires AllNumbered(layers, s) && k in Layered(layers)
    ensures k == PointId(s.sourceType, s.id, i)
  {
    var n := |layers| - 1;
    if k in PointMap(layers[n]) {
      PointMapHolds(layers[n], s.sourceType, s.id);
      i :| 0 <= i < |layers[n]| && k == IdOf(layers[n][i]);
    } else {
      i := LayeredIds(layers[..n], s, k);
    }
  }

  ghost predicate LastIsLongest(layers: seq<seq<Point>>)
    requires layers != []
  {
    forall j :: 0 <= j < |layers| ==> |layers[j]| <= |layers[|layers| - 1]|
  }

  /** Exactly when the last upsert leaves no trace of the earlier ones: when none of them
      had more chunks. */
  lemma {:induction false} NoLeftoversIff(layers: seq<seq<Point>>, s: Source)
    requires layers != [] && AllNumbered(layers, s)
    ensures Layered(layers) == PointMap(layers[|layers| - 1]) <==> LastIsLongest(layers)
  {
    var n := |layers| - 1;
    var last := PointMap(layers[n]);
    if LastIsLongest(layers) {
      forall k | k in Layered(layers)
        ensures k in last
      {
        var i := LayeredIds(layers, s, k);
        LayeredKeys(layers, s, i);
        NumberedKeys(layers[n], s, i);
      }
      assert forall k :: k in last ==> Layered(layers)[k] == last[k];
    } else {
      var j :| 0 <= j < |layers| && |layers[j]| > |layers[n]|;
      LayeredKeys(layers, s, |layers[n]|);
      NumberedKeys(layers[n], s, |layers[n]|);
    }
  }

  // ----- every interleaving -----

  ghost predicate HoldsLayers(c: Collection, s: Source, layers: seq<seq<Point>>) {
    Of(c, s) == Layered(layers) && AllNumbered(layers, s)
  }

  /** A source holds exactly the layers of its upserts since the latest deletion, and a run
      that has cleared its source is not the first to touch it. */
  ghost predicate Settled(st: State) {
    && (forall s :: s in st.layers ==> HoldsLayers(st.points, s, st.layers[s]))
    && (forall k :: k in st.runs && st.runs[k].phase == Cleared ==> st.runs[k].source in st.layers)
  }

  lemma {:induction false} OperationOnOne(c: Collection, s: Source, points: seq<Point>, t: Source)
    requires Numbered(points, s.sourceType, s.id) && s != t && WellKeyed(Of(c, t))
    ensures Of(WithoutSource(c, s.sourceType, s.id), t) == Of(c, t)
    ensures Of(PutPoints(c, points), t) == Of(c, t)
  {
    DeleteLeavesOthers(c, s.sourceType, s.id, t.sourceType, t.id);
    PutLeavesOthers(c, points, s.sourceType, s.id, t.sourceType, t.id);
  }

  lemma {:induction false} PutAddsLayer(c: Collection, s: Source, points: seq<Point>)
    requires Numbered(points, s.sourceType, s.id)
    ensures Of(PutPoints(c, points), s) == Of(c, s) + PointMap(points)
  {
    PutIsUnion(c, points);
    PointMapKeyed(points);
  }

  /** Other sources keep their layers through either operation. */
  lemma {:induction false} OthersHold(c: Collection, s: Source, points: seq<Point>, t: Source, layers: seq<seq<Point>>)
    requires Numbered(points, s.sourceType, s.id) && s != t && HoldsLayers(c, t, layers)
    ensures HoldsLayers(WithoutSource(c, s.sourceType, s.id), t, layers) && HoldsLayers(PutPoints(c, points), t, layers)
  {
    LayeredKeyed(layers);
    OperationOnOne(c, s, points, t);
  }

  lemma {:induction false} UpsertionHolds(c: Collection, s: Source, points: seq<Point>, layers: seq<seq<Point>>)
    requires Numbered(points, s.sourceType, s.id) && HoldsLayers(c, s, layers)
    ensures HoldsLayers(PutPoints(c, points), s, layers + [points])
  {
    PutAddsLayer(c, s, points);
    OneLayerMore(layers, points);
  }

  lemma {:induction false} DeletionSettles(st: State, s: Source)
    requires Settled(st)
    ensures Settled(st.(points := WithoutSource(st.points, s.sourceType, s.id), layers := st.layers[s := []]))
  {
    DeleteLeavesOthers(st.points, s.sourceType, s.id, s.sourceType, s.id);
    forall t | t in st.layers && t != s
      ensures HoldsLayers(WithoutSource(st.points, s.sourceType, s.id), t, st.layers[t])
    {
      OthersHold(st.points, s, [], t, st.layers[t]);
    }
  }

  lemma {:induction false} UpsertionSettles(st: State, s: Source, points: seq<Point>)
    requires Settled(st) && s in st.layers && Numbered(points, s.sourceType, s.id)
    ensures Settled(st.(points := PutPoints(st.points, points), layers := st.layers[s := st.layers[s] + [points]]))
  {
    UpsertionHolds(st.points, s, points, st.layers[s]);
    forall t | t in st.layers && t != s
      ensures HoldsLayers(PutPoints(st.points, points), t, st.layers[t])
    {
      OthersHold(st.points, s, points, t, st.layers[t]);
    }
  }

  lemma {:induction false} ApplyKeepsSettled(ext: Externals, org: Uuid, st: State, e: Event)
    requires Settled(st)
    ensures Settled(Apply(ext, org, st, e))
  {
    var next := Apply(ext, org, st, e);
    if e.Delete? && next != st {
      if Effective(e.call) {
        DeletionSettles(st, st.runs[e.run].source);
      }
    } else if e.Upsert? && next != st {
      if Effective(e.call) {
        UpsertionSettles(st, st.runs[e.run].source, PointsToWrite(ext, org, st.runs[e.run]));
      }
    }
  }

  /** Start from any collection at all and let the runs interleave in any way: a source that
      was ever cleared holds exactly what was upserted since its latest deletion. */
  lemma {:induction false} LayersDecide(ext: Externals, org: Uuid, st: State, events: seq<Event>)
    requires Settled(st)
    ensures Settled(ApplyAll(ext, org, st, events))
    decreases |events|
  {
    if events != [] {
      ApplyKeepsSettled(ext, org, st, events[0]);
      LayersDecide(ext, org, Apply(ext, org, st, events[0]), events[1..]);
    }
  }

  lemma {:induction false} LayersGrow(ext: Externals, org: Uuid, st: State, events: seq<Event>)
    ensures st.layers.Keys <= ApplyAll(ext, org, st, events).layers.Keys
    decreases |events|
  {
    if events != [] {
      LayersGrow(ext, org, Apply(ext, org, st, events[0]), events[1..]);
    }
  }

  lemma {:induction false} ApplyLeavesOthers(ext: Externals, org: Uuid, st: State, e: Event, t: Source)
    requires WellKeyed(Of(st.points, t)) && t !in Apply(ext, org, st, e).layers
    ensures Of(Apply(ext, org, st, e).points, t) == Of(st.points, t)
  {
    if (e.Delete? || e.Upsert?) && e.run in st.runs && Effective(e.call) {
      var r := st.runs[e.run];
      if r.source != t {
        OperationOnOne(st.points, r.source, PointsToWrite(ext, org, r), t);
      }
    }
  }

  /** A source on which no operation took effect keeps the points it had. */
  lemma {:induction false} OthersUntouched(ext: Externals, org: Uuid, st: State, events: seq<Event>, t: Source)
    requires WellKeyed(Of(st.points, t)) && t !in ApplyAll(ext, org, st, events).layers
    ensures Of(ApplyAll(ext, org, st, events).points, t) == Of(st.points, t)
    decreases |events|
  {
    if events != [] {
      var next := Apply(ext, org, st, events[0]);
      LayersGrow(ext, org, next, events[1..]);
      ApplyLeavesOthers(ext, org, st, events[0], t);
      OthersUntouched(ext, org, next, events[1..], t);
    }
  }

  /** Every interleaving, also of runs that have read different texts: if the latest
      effective operation on a source was a deletion, it has no points; if it was an
      upsert, it has exactly the points of that run's text if and only if no upsert since
      the latest deletion had more chunks; and a source nothing touched keeps its points. */
  lemma {:induction false} EveryInterleaving(ext: Externals, org: Uuid, c: Collection, events: seq<Event>, s: Source)
    ensures
      var st := ApplyAll(ext, org, Fresh(c), events);
      var layers := LayersOf(st, s);
      && (s in st.layers && layers == [] ==> Of(st.points, s) == map[])
      && (layers != [] ==> (Of(st.points, s) == PointMap(layers[|layers| - 1]) <==> LastIsLongest(layers)))
      && (s !in st.layers && WellKeyed(Of(c, s)) ==> Of(st.points, s) == Of(c, s))
  {
    var st := ApplyAll(ext, org, Fresh(c), events);
    var layers := LayersOf(st, s);
    LayersDecide(ext, org, Fresh(c), events);
    if layers != [] {
      NoLeftoversIff(layers, s);
    }
    if s !in st.layers && WellKeyed(Of(c, s)) {
      OthersUntouched(ext, org, Fresh(c), events, s);
    }
  }

  // ----- a source whose text is written once -----

  /** All runs for this source read one text, as those for a resume do. */
  predicate OneText(events: seq<Event>, s: Source, candidate: Uuid, text: string) {
    forall i :: 0 <= i < |events| && events[i].Start? && events[i].source == s ==>
      events[i].candidate == candidate && events[i].text == text
  }

  ghost predicate OnlyText(st: State, s: Source, candidate: Uuid, text: string, points: seq<Point>) {
    && (forall k :: k in st.runs && st.runs[k].source == s ==> st.runs[k].candidate == candidate && st.runs[k].text == text)
    && (forall j :: 0 <= j < |LayersOf(st, s)| ==> LayersOf(st, s)[j] == points)
  }

  lemma {:induction false} LayersAfter(ext: Externals, org: Uuid, st: State, e: Event, s: Source)
    ensures
      var now := LayersOf(Apply(ext, org, st, e), s);
      || now == LayersOf(st, s) || now == []
      || (e.Upsert? && e.run in st.runs && st.runs[e.run].source == s
          && now == LayersOf(st, s) + [PointsToWrite(ext, org, st.runs[e.run])])
  {
  }

  lemma {:induction false} RunsAfter(ext: Externals, org: Uuid, st: State, e: Event, k: nat)
    requires k in Apply(ext, org, st, e).runs
    ensures
      var r := Apply(ext, org, st, e).runs[k];
      || (k in st.runs && r == st.runs[k].(phase := r.phase))
      || (e.Start? && r == Run(e.source, e.candidate, e.text, Started))
  {
  }

  lemma {:induction false} ApplyKeepsOnlyText(ext: Externals, org: Uuid, st: State, e: Event, s: Source,
                                              candidate: Uuid, text: string)
    requires OnlyText(st, s, candidate, text, SourcePoints(ext, org, s.sourceType, s.id, candidate, text))
    requires e.Start? && e.source == s ==> e.candidate == candidate && e.text == text
    ensures OnlyText(Apply(ext, org, st, e), s, candidate, text, SourcePoints(ext, org, s.sourceType, s.id, candidate, text))
  {
    var next := Apply(ext, org, st, e);
    LayersAfter(ext, org, st, e, s);
    forall k | k in next.runs && next.runs[k].source == s
      ensures next.runs[k].candidate == candidate && next.runs[k].text == text
    {
      RunsAfter(ext, org, st, e, k);
    }
  }

  lemma {:induction false} RunsKeepOnlyText(ext: Externals, org: Uuid, st: State, events: seq<Event>, s: Source,
                                            candidate: Uuid,
                                            text: string)
    requires OnlyText(st, s, candidate, text, SourcePoints(ext, org, s.sourceType, s.id, candidate, text))
    requires OneText(events, s, candidate, text)
    ensures OnlyText(ApplyAll(ext, org, st, events), s, candidate, text,
                     SourcePoints(ext, org, s.sourceType, s.id, candidate, text))
    decreases |events|
  {
    if events != [] {
      ApplyKeepsOnlyText(ext, org, st, events[0], s, candidate, text);
      RunsKeepOnlyText(ext, org, Apply(ext, org, st, events[0]), events[1..], s, candidate, text);
    }
  }

  /** Re-embedding a file that is written once is safe: from any collection contents, under
      any interleaving of any number of runs, whenever the latest effective operation on
      the source is an upsert, its points are exactly those of the file, with no stale
      leftovers. */
  lemma {:induction false} ReembeddingIsSafe(ext: Externals, org: Uuid, c: Collection, events: seq<Event>, s: Source,
                                             candidate: Uuid, text: string)
    requires OneText(events, s, candidate, text)
    ensures
      var st := ApplyAll(ext, org, Fresh(c), events);
      && (LayersOf(st, s) != [] ==>
            Of(st.points, s) == PointMap(SourcePoints(ext, org, s.sourceType, s.id, candidate, text)))
      && (s in st.layers && st.layers[s] == [] ==> Of(st.points, s) == map[])
  {
    EveryInterleaving(ext, org, c, events, s);
    RunsKeepOnlyText(ext, org, Fresh(c), events, s, candidate, text);
  }

  lemma {:induction false} ApplyTwo(ext: Externals, org: Uuid, st: State, events: seq<Event>)
    requires |events| >= 2
    ensures ApplyAll(ext, org, st, events)
         == ApplyAll(ext, org, Apply(ext, org, Apply(ext, org, st, events[0]), events[1]), events[2..])
  {
    assert events[1..][1..] == events[2..];
  }

  /** Both runs have started, and then both have cleared the source. */
  lemma {:induction false} BothClear(ext: Externals, org: Uuid, c: Collection, s: Source, candidate: Uuid,
                                     longer: string, shorter: string, events: seq<Event>) returns (st: State)
    requires |events| == 6
    requires events[..4] == [Start(0, s, candidate, shorter), Start(1, s, candidate, longer), Delete(0, Works), Delete(1, Works)]
    ensures ApplyAll(ext, org, Fresh(c), events) == ApplyAll(ext, org, st, events[4..])
    ensures st.runs == map[0 := Run(s, candidate, shorter, Cleared), 1 := Run(s, candidate, longer, Cleared)]
    ensures st.layers == map[s := []]
  {
    assert events[0] == events[..4][0] && events[1] == events[..4][1] && events[2] == events[..4][2] && events[3] == events[..4][3];
    var started := Apply(ext, org, Apply(ext, org, Fresh(c), events[0]), events[1]);
    assert started.runs == map[0 := Run(s, candidate, shorter, Started), 1 := Run(s, candidate, longer, Started)];
    var half := Apply(ext, org, started, events[2]);
    assert half.layers == map[s := []];
    st := Apply(ext, org, half, events[3]);
    ApplyTwo(ext, org, Fresh(c), events);
    ApplyTwo(ext, org, started, events[2..]);
    assert events[2..][2..] == events[4..];
  }

  lemma {:induction false} SixEvents(ext: Externals, org: Uuid, c: Collection, s: Source, candidate: Uuid,
                                     longer: string, shorter: string, events: seq<Event>)
    requires events == [Start(0, s, candidate, shorter), Start(1, s, candidate, longer), Delete(0, Works), Delete(1, Works),
                        Upsert(1, Works), Upsert(0, Works)]
    ensures LayersOf(ApplyAll(ext, org, Fresh(c), events), s)
         == [SourcePoints(ext, org, s.sourceType, s.id, candidate, longer),
             SourcePoints(ext, org, s.sourceType, s.id, candidate, shorter)]
  {
    var st := BothClear(ext, org, c, s, candidate, longer, shorter, events);
    var half := Apply(ext, org, st, events[4]);
    assert LayersOf(half, s) == [SourcePoints(ext, org, s.sourceType, s.id, candidate, longer)];
    ApplyTwo(ext, org, st, events[4..]);
    assert events[4..][2..] == [];
  }

  /** Texts that change are not safe: a longer text upserted between the delete and the
      upsert of a shorter one leaves chunks of its own behind. */
  lemma {:induction false} LeftoversCanStay(ext: Externals, org: Uuid, c: Collection, s: Source, candidate: Uuid,
                                            longer: string, shorter: string)
    requires |Vectors(ext, Chunking.Chunks(longer))| == |Chunking.Chunks(longer)|
    requires |Vectors(ext, Chunking.Chunks(shorter))| == |Chunking.Chunks(shorter)|
    requires |Chunking.Chunks(longer)| > |Chunking.Chunks(shorter)|
    ensures
      var events := [Start(0, s, candidate, shorter), Start(1, s, candidate, longer), Delete(0, Works), Delete(1, Works),
                     Upsert(1, Works), Upsert(0, Works)];
      var short := SourcePoints(ext, org, s.sourceType, s.id, candidate, shorter);
      var st := ApplyAll(ext, org, Fresh(c), events);
      LayersOf(st, s) == [SourcePoints(ext, org, s.sourceType, s.id, candidate, longer), short]
      && Of(st.points, s) != PointMap(short)
  {
    var events := [Start(0, s, candidate, shorter), Start(1, s, candidate, longer), Delete(0, Works), Delete(1, Works),
                   Upsert(1, Works), Upsert(0, Works)];
    var long := SourcePoints(ext, org, s.sourceType, s.id, candidate, longer);
    var short := SourcePoints(ext, org, s.sourceType, s.id, candidate, shorter);
    SixEvents(ext, org, c, s, candidate, longer, shorter, events);
    EveryInterleaving(ext, org, c, events, s);
    assert |[long, short][0]| > |[long, short][1]|;
  }

  // ----- the code's own run -----

  lemma {:induction false} TraceOfOneRun(ext: Externals, org: Uuid, c: Collection, s: Source, candidate: Uuid,
                                         text: string,
                                         delete: Call, upsert: Call)
    ensures
      var bare := WithoutSource(c, s.sourceType, s.id);
      ApplyAll(ext, org, Fresh(c), [Start(0, s, candidate, text), Delete(0, delete), Upsert(0, upsert)]).points
      == if !Effective(delete) then c
         else if delete == RaisesLate || !Effective(upsert) then bare
         else PutPoints(bare, SourcePoints(ext, org, s.sourceType, s.id, candidate, text))
  {
    var trace := [Start(0, s, candidate, text), Delete(0, delete), Upsert(0, upsert)];
    var a := Apply(ext, org, Fresh(c), trace[0]);
    var b := Apply(ext, org, a, trace[1]);
    ApplyTwo(ext, org, Fresh(c), trace);
    assert trace[2..] == [Upsert(0, upsert)];
    assert trace[2..][1..] == [];
    assert ApplyAll(ext, org, b, trace[2..]) == Apply(ext, org, b, trace[2]);
  }

  lemma {:induction false} ReplacedAfter(ix: Index, org: Uuid, s: Source, points: seq<Point>, calls: EmbedCalls)
    requires CollectionName(org) in ix
    ensures
      var c := CollectionOf(ix, org);
      var bare := WithoutSource(c, s.sourceType, s.id);
      CollectionOf(Replaced(ix, org, s.sourceType, s.id, points, calls).0, org)
      == if !Effective(calls.delete) then c
         else if calls.delete == RaisesLate || !Effective(calls.upsert) then bare
         else PutPoints(bare, points)
  {
  }

  /** What one run of `_embed_and_upsert` that reaches the index leaves in its collection. */
  lemma {:induction false} CollectionAfter(ext: Externals, ix: Index, org: Uuid, s: Source, candidate: Uuid,
                                           text: string,
                                           calls: EmbedCalls)
    requires CollectionName(org) in ix && calls.embed == Works
    requires |Vectors(ext, Chunking.Chunks(text))| == |Chunking.Chunks(text)|
    ensures
      var c := CollectionOf(ix, org);
      var bare := WithoutSource(c, s.sourceType, s.id);
      CollectionOf(SourceEmbedded(ix, ext, org, s.sourceType, s.id, candidate, text, calls).0, org)
      == if !Effective(calls.delete) then c
         else if calls.delete == RaisesLate || !Effective(calls.upsert) then bare
         else PutPoints(bare, SourcePoints(ext, org, s.sourceType, s.id, candidate, text))
  {
    ReplacedAfter(ix, org, s, SourcePoints(ext, org, s.sourceType, s.id, candidate, text), calls);
  }

  /** Such a run is a start, a delete and an upsert of this machine. */
  lemma {:induction false} SerialRunIsATrace(ext: Externals, ix: Index, org: Uuid, s: Source, candidate: Uuid,
                                             text: string, calls: EmbedCalls)
    requires CollectionName(org) in ix && calls.embed == Works
    requires |Vectors(ext, Chunking.Chunks(text))| == |Chunking.Chunks(text)|
    ensures
      var trace := [Start(0, s, candidate, text), Delete(0, calls.delete), Upsert(0, calls.upsert)];
      CollectionOf(SourceEmbedded(ix, ext, org, s.sourceType, s.id, candidate, text, calls).0, org)
      == ApplyAll(ext, org, Fresh(CollectionOf(ix, org)), trace).points
  {
    CollectionAfter(ext, ix, org, s, candidate, text, calls);
    TraceOfOneRun(ext, org, CollectionOf(ix, org), s, candidate, text, calls.delete, calls.upsert);
  }
}
