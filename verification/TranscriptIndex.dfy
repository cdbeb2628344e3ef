/** What the index holds of a transcript: how it catches up with the latest text, what
    exactly it holds in between, and what becomes of the empty text. */
module TranscriptIndex {
  import opened Basics
  import opened Encodings
  import opened Tasks
  import opened Chunking
  import opened VectorStore
  import opened Externals
  import opened Embedding
  import opened Transcripts

  /** Before anything is ingested: all collections are empty. */
  ghost predicate Fresh(st: State) {
    && st.rows == map[] && st.queue == multiset{} && st.active == None && st.sending == multiset{} && st.gaveUp == {}
    && forall n :: n in st.index ==> st.index[n] == map[]
  }

  lemma {:induction false} EmptyIsOk(ix: Index)
    requires forall n :: n in ix ==> ix[n] == map[]
    ensures AllKeyed(ix) && AllOwn(ix) && forall org, id :: Points(ix, org, id) == map[]
  {
    forall org
      ensures CollectionOf(ix, org) == map[]
    {
    }
    forall org, id
      ensures Points(ix, org, id) == map[]
    {
      assert CollectionOf(ix, org) == map[];
    }
  }

  lemma {:induction false} FreshIsOk(st: State, ext: Externals)
    requires Fresh(st)
    ensures Ok(st, ext)
  {
    EmptyIsOk(st.index);
  }

  /** The index catches up: in every reachable state in which the organization has its
      collection, a transcript whose text is not empty is indexed as that text, or a task
      for it is on the queue, or an ingest is about to send one, or a message was never sent
      or used up its attempts and nothing has made up for it since. */
  lemma {:induction false} IndexCatchesUp(st: State, ext: Externals, es: seq<Event>, id: Uuid)
    requires Fresh(st) && id in Run(st, ext, es).rows && HasText(Run(st, ext, es).rows[id])
    ensures
      var now := Run(st, ext, es);
      var org := now.rows[id].org;
      || IndexedAs(now.interviews, now.index, ext, id, now.rows[id], now.rows[id].text.value)
      || (exists m :: m in now.queue && About(m, id, org))
      || (id, org) in now.sending
      || (id, org) in now.gaveUp
      || CollectionName(org) !in now.index
  {
    FreshIsOk(st, ext);
    RunKeepsOk(st, ext, es);
    assert RowOk(Run(st, ext, es), ext, id);
  }

  /** Nothing is going on for this transcript, and nothing about it is given up. */
  ghost predicate AtRest(st: State, id: Uuid, org: Uuid) {
    && (forall m :: m in st.queue ==> !About(m, id, org))
    && (id, org) !in st.sending && (id, org) !in st.gaveUp
    && (st.active.Some? ==> st.active.value.message.id != id)
  }

  /** One point per chunk of the text, at its position, with its text and vector. */
  ghost predicate FullyIndexed(ext: Externals, st: State, id: Uuid, row: Transcript, text: string) {
    var chunks := Chunks(text);
    var points := Points(st.index, row.org, id);
    && |points| == |chunks| == |Vectors(ext, chunks)|
    && row.interview in st.interviews && st.interviews[row.interview].Some?
    && forall i :: 0 <= i < |chunks| ==>
         PointId(TRANSCRIPT, id, i) in points
         && points[PointId(TRANSCRIPT, id, i)]
            == Point(row.org, TRANSCRIPT, id, st.interviews[row.interview].value, i, chunks[i], Vectors(ext, chunks)[i])
  }

  /** When everything of a transcript has been sent and worked off, its points are exactly
      one per chunk of the latest text, unless its organization's collection was torn down,
      and then there are none. */
  lemma {:induction false} AtRestIndexed(st: State, ext: Externals, es: seq<Event>, id: Uuid)
    requires Fresh(st) && id in Run(st, ext, es).rows && HasText(Run(st, ext, es).rows[id])
    requires AtRest(Run(st, ext, es), id, Run(st, ext, es).rows[id].org)
    ensures
      var now := Run(st, ext, es);
      var row := now.rows[id];
      if CollectionName(row.org) in now.index then FullyIndexed(ext, now, id, row, row.text.value)
      else Points(now.index, row.org, id) == map[]
  {
    var now := Run(st, ext, es);
    var row := now.rows[id];
    IndexCatchesUp(st, ext, es, id);
    if CollectionName(row.org) in now.index {
      SourcePointsOnePerChunk(ext, row.org, TRANSCRIPT, id, now.interviews[row.interview].value, row.text.value);
    }
  }

  // ----- what the index holds, exactly -----

  /** What a task's indexing half does to the points of a transcript. */
  function FinishWrites(st: State, ext: Externals, id: Uuid, calls: TaskCalls): Write {
    if st.active.None? || st.active.value.message.id != id || id !in st.rows then NotTouched
    else
      var interview := st.rows[id].interview;
      if interview !in st.interviews || st.interviews[interview].None? then NotTouched
      else WriteOf(st.index, ext, st.active.value.message.org, st.active.value.text, calls.index)
  }

  /** The text whose chunks the index holds after a write; "" for none. */
  function HeldAfter(held: string, text: string, write: Write): string {
    match write
    case NotTouched => held
    case NowEmpty => ""
    case NowFull => text
  }

  /** And after one more event. */
  function Noted(held: string, st: State, ext: Externals, e: Event, id: Uuid): string {
    if !e.Finish? || st.active.None? then held
    else HeldAfter(held, st.active.value.text, FinishWrites(st, ext, id, e.taskCalls))
  }

  function HeldFrom(held: string, st: State, ext: Externals, es: seq<Event>, id: Uuid): string
    requires UniqueInterviews(st.rows)
    decreases |es|
  {
    if es == [] then held else
      StepKeepsInterviews(st, ext, es[0]);
      HeldFrom(Noted(held, st, ext, es[0], id), Step(st, ext, es[0]), ext, es[1..], id)
  }

  /** The index holds exactly the chunks of this text. */
  ghost predicate Holds(interviews: map<Uuid, Option<Uuid>>, ix: Index, ext: Externals, id: Uuid, row: Transcript,
                        held: string) {
    if held == "" then Points(ix, row.org, id) == map[] else IndexedAs(interviews, ix, ext, id, row, held)
  }

  /** While its organization has a collection, that holds the chunks of this text, and no
      other collection holds points of the transcript. */
  ghost predicate Fits(held: string, st: State, ext: Externals, id: Uuid) {
    && (id in st.rows && CollectionName(st.rows[id].org) in st.index ==>
          Holds(st.interviews, st.index, ext, id, st.rows[id], held))
    && (id !in st.rows ==> held == "")
    && (forall org :: (id in st.rows ==> st.rows[id].org != org) ==> Points(st.index, org, id) == map[])
  }

  lemma {:induction false} IngestFits(held: string, st: State, ext: Externals, e: Event, id: Uuid)
    requires Ok(st, ext) && e.Ingest? && Fits(held, st, ext, id)
    ensures Fits(held, Step(st, ext, e), ext, id)
  {
    IngestEffect(st.interviews, st.rows, e.org, e.interview, e.newId, e.intake, e.calls);
    var changed := Ingested(st.interviews, st.rows, e.org, e.interview, e.newId, e.intake, e.calls).1;
    if changed.Some? && id in st.rows && changed.value == id {
      assert Step(st, ext, e).rows[id] == Filled(st.rows[id], e.intake);
    }
  }

  /** A run of the indexing half for another source. */
  lemma {:induction false} ElsewhereFits(held: string, st: State, ext: Externals, org: Uuid, sourceType: string,
                                         sourceId: Uuid,
                                         candidateId: Uuid, text: string, calls: EmbedCalls, id: Uuid)
    requires AllKeyed(st.index) && Fits(held, st, ext, id) && (sourceType != TRANSCRIPT || sourceId != id)
    ensures Fits(held, st.(index := SourceEmbedded(st.index, ext, org, sourceType, sourceId, candidateId, text, calls).0), ext, id)
  {
    var ix := SourceEmbedded(st.index, ext, org, sourceType, sourceId, candidateId, text, calls).0;
    EmbeddingOutcome(st.index, ext, org, sourceType, sourceId, candidateId, text, calls);
    forall other
      ensures Points(ix, other, id) == Points(st.index, other, id)
    {
      OthersKeepPoints(st.index, ext, org, sourceType, sourceId, candidateId, text, calls, other, id);
    }
  }

  lemma {:induction false} NothingOfNothing(ext: Externals, org: Uuid, id: Uuid, candidateId: Uuid)
    ensures Chunks("") == [] && SourcePoints(ext, org, TRANSCRIPT, id, candidateId, "") == []
  {
  }

  /** What a run for this transcript leaves of it. */
  lemma {:induction false} OwnHolds(held: string, st: State, ext: Externals, id: Uuid, text: string, calls: EmbedCalls)
    requires id in st.rows && Holds(st.interviews, st.index, ext, id, st.rows[id], held)
    requires st.rows[id].interview in st.interviews && st.interviews[st.rows[id].interview].Some?
    ensures
      var row := st.rows[id];
      var candidate := st.interviews[row.interview].value;
      var ix := SourceEmbedded(st.index, ext, row.org, TRANSCRIPT, id, candidate, text, calls).0;
      Holds(st.interviews, ix, ext, id, row, HeldAfter(held, text, WriteOf(st.index, ext, row.org, text, calls)))
  {
    var row := st.rows[id];
    var candidate := st.interviews[row.interview].value;
    EmbeddingExactly(st.index, ext, row.org, TRANSCRIPT, id, candidate, text, calls);
    NothingOfNothing(ext, row.org, id, candidate);
  }

  lemma {:induction false} OtherOrganizations(st: State, ext: Externals, id: Uuid, candidateId: Uuid, text: string,
                                              calls: EmbedCalls)
    requires AllKeyed(st.index) && id in st.rows
    ensures
      var ix := SourceEmbedded(st.index, ext, st.rows[id].org, TRANSCRIPT, id, candidateId, text, calls).0;
      forall org :: org != st.rows[id].org ==> Points(ix, org, id) == Points(st.index, org, id)
  {
    forall org | org != st.rows[id].org
      ensures Points(SourceEmbedded(st.index, ext, st.rows[id].org, TRANSCRIPT, id, candidateId, text, calls).0, org, id)
           == Points(st.index, org, id)
    {
      OthersKeepPoints(st.index, ext, st.rows[id].org, TRANSCRIPT, id, candidateId, text, calls, org, id);
    }
  }

  /** The rows and the index are as before. */
  ghost predicate SameStores(st: State, next: State) {
    next.rows == st.rows && next.interviews == st.interviews && next.index == st.index
  }

  lemma {:induction false} SameFit(held: string, st: State, next: State, ext: Externals, id: Uuid)
    requires Fits(held, st, ext, id)
    requires SameStores(st, next)
    ensures Fits(held, next, ext, id)
  {
  }

  /** What a finish does to rows and index. */
  lemma {:induction false} FinishIs(st: State, ext: Externals, calls: TaskCalls)
    requires UniqueInterviews(st.rows) && ActiveOk(st) && st.active.Some?
    ensures
      var Running(m, text) := st.active.value;
      var row := st.rows[m.id];
      var next := Step(st, ext, Finish(calls));
      && next.rows == st.rows && next.interviews == st.interviews
      && next.index == Indexed(st.interviews, st.index, ext, row.org, m.id, row.interview, text, calls.index).0
  {
  }

  lemma {:induction false} OwnRunFits(held: string, st: State, ext: Externals, id: Uuid, text: string,
                                      calls: EmbedCalls)
    requires AllKeyed(st.index) && Fits(held, st, ext, id) && id in st.rows
    requires st.rows[id].interview in st.interviews && st.interviews[st.rows[id].interview].Some?
    ensures
      var row := st.rows[id];
      var candidate := st.interviews[row.interview].value;
      var ix := SourceEmbedded(st.index, ext, row.org, TRANSCRIPT, id, candidate, text, calls).0;
      Fits(HeldAfter(held, text, WriteOf(st.index, ext, row.org, text, calls)), st.(index := ix), ext, id)
  {
    var row := st.rows[id];
    EmbeddingOutcome(st.index, ext, row.org, TRANSCRIPT, id, st.interviews[row.interview].value, text, calls);
    if CollectionName(row.org) in st.index {
      OwnHolds(held, st, ext, id, text, calls);
    }
    OtherOrganizations(st, ext, id, st.interviews[st.rows[id].interview].value, text, calls);
  }

  lemma {:induction false} RunningFits(held: string, st: State, ext: Externals, m: Message, text: string,
                                       calls: TaskCalls, id: Uuid)
    requires AllKeyed(st.index) && Fits(held, st, ext, id) && m.id in st.rows
    requires st.active == Some(Running(m, text)) && st.rows[m.id].org == m.org
    ensures
      var row := st.rows[m.id];
      var ix := Indexed(st.interviews, st.index, ext, row.org, m.id, row.interview, text, calls.index).0;
      Fits(HeldAfter(held, text, FinishWrites(st, ext, id, calls)), st.(index := ix), ext, id)
  {
    var row := st.rows[m.id];
    if row.interview !in st.interviews || st.interviews[row.interview].None? {
      SameFit(held, st, st.(index := st.index), ext, id);
    } else if m.id == id {
      OwnRunFits(held, st, ext, id, text, calls.index);
    } else {
      ElsewhereFits(held, st, ext, m.org, TRANSCRIPT, m.id, st.interviews[row.interview].value, text, calls.index, id);
    }
  }

  lemma {:induction false} FinishFits(held: string, st: State, ext: Externals, calls: TaskCalls, id: Uuid)
    requires Ok(st, ext) && Fits(held, st, ext, id)
    ensures Fits(Noted(held, st, ext, Finish(calls), id), Step(st, ext, Finish(calls)), ext, id)
  {
    if st.active.Some? {
      var Running(m, text) := st.active.value;
      var row := st.rows[m.id];
      FinishIs(st, ext, calls);
      RunningFits(held, st, ext, m, text, calls, id);
      var ix := Indexed(st.interviews, st.index, ext, row.org, m.id, row.interview, text, calls.index).0;
      SameFit(Noted(held, st, ext, Finish(calls), id), st.(index := ix), Step(st, ext, Finish(calls)), ext, id);
    }
  }

  lemma {:induction false} StartWritesNothing(st: State, ext: Externals, m: Message, calls: TaskCalls)
    requires UniqueInterviews(st.rows)
    ensures
      var next := Step(st, ext, Start(m, calls));
      && SameStores(st, next)
      && (next.active == st.active || next.active == None
          || (TextToEmbed(st.rows, m).Some? && next.active == Some(Running(m, TextToEmbed(st.rows, m).value))))
  {
    var next := Step(st, ext, Start(m, calls));
    var text := TextToEmbed(st.rows, m);
    if m in st.queue && st.active.None? && Ask(calls.load) == Returned && text.Some? {
      assert next == st.(active := Some(Running(m, text.value)));
    } else {
      assert next in {st, Settled(st, m, Ask(calls.load), calls.ack, true)};
    }
  }

  lemma {:induction false} SendWritesNothing(st: State, ext: Externals, id: Uuid, org: Uuid, call: Call)
    requires UniqueInterviews(st.rows)
    ensures
      var next := Step(st, ext, Send(id, org, call));
      SameStores(st, next) && next.active == st.active
  {
    var next := Step(st, ext, Send(id, org, call));
    if (id, org) in st.sending {
      var left := st.(sending := st.sending - multiset{(id, org)});
      assert next in {Sent(left, Message(EmbedTranscript, id, org, 0)), left.(gaveUp := st.gaveUp + {(id, org)})};
    } else {
      assert next == st;
    }
  }

  lemma {:induction false} PublishWritesNothing(st: State, ext: Externals, m: Message)
    requires UniqueInterviews(st.rows)
    ensures SameStores(st, Step(st, ext, Publish(m))) && Step(st, ext, Publish(m)).active == st.active
  {
  }

  lemma {:induction false} TearDownFits(held: string, st: State, ext: Externals, org: Uuid, exists_: Call, delete: Call,
                                        id: Uuid)
    requires Fits(held, st, ext, id)
    ensures Fits(held, st.(index := TornDown(st.index, org, exists_, delete).0), ext, id)
  {
    var jx := TornDown(st.index, org, exists_, delete).0;
    forall other
      ensures Points(jx, other, id) == if CollectionName(other) in jx then Points(st.index, other, id) else map[]
    {
      TornDownEffect(st.index, org, exists_, delete, other);
    }
  }

  /** Events that write neither rows nor points. */
  lemma {:induction false} IdleFits(held: string, st: State, ext: Externals, e: Event, id: Uuid)
    requires Ok(st, ext) && Fits(held, st, ext, id) && (e.Send? || e.Publish? || e.Start?)
    ensures Fits(held, Step(st, ext, e), ext, id)
  {
    match e {
      case Send(i, org, call) => SendWritesNothing(st, ext, i, org, call);
      case Publish(m) => PublishWritesNothing(st, ext, m);
      case Start(m, calls) => StartWritesNothing(st, ext, m, calls);
    }
    SameFit(held, st, Step(st, ext, e), ext, id);
  }

  lemma {:induction false} StepFits(held: string, st: State, ext: Externals, e: Event, id: Uuid)
    requires Ok(st, ext) && Fits(held, st, ext, id)
    ensures Fits(Noted(held, st, ext, e, id), Step(st, ext, e), ext, id)
  {
    match e
    case Ingest(_, _, _, _, _) => IngestFits(held, st, ext, e, id);
    case Send(_, _, _) => IdleFits(held, st, ext, e, id);
    case Publish(_) => IdleFits(held, st, ext, e, id);
    case Start(_, _) => IdleFits(held, st, ext, e, id);
    case Finish(calls) => FinishFits(held, st, ext, calls, id);
    case Elsewhere(org, sourceType, sourceId, candidateId, text, calls) =>
      if sourceType != TRANSCRIPT {
        ElsewhereFits(held, st, ext, org, sourceType, sourceId, candidateId, text, calls, id);
      }
    case TearDown(org, exists_, delete) => TearDownFits(held, st, ext, org, exists_, delete, id);
  }

  lemma {:induction false} RunFits(held: string, st: State, ext: Externals, es: seq<Event>, id: Uuid)
    requires Ok(st, ext) && Fits(held, st, ext, id)
    ensures Fits(HeldFrom(held, st, ext, es, id), Run(st, ext, es), ext, id)
    decreases |es|
  {
    if es != [] {
      StepKeepsOk(st, ext, es[0]);
      StepFits(held, st, ext, es[0], id);
      RunFits(Noted(held, st, ext, es[0], id), Step(st, ext, es[0]), ext, es[1..], id);
    }
  }

  /** In every reachable state, and not only at rest, the index holds of a transcript
      exactly the chunks of the text that the latest effective run wrote, or nothing if
      there was none, or it only deleted, or the collection has been torn down. */
  lemma {:induction false} HoldsLatestWrite(st: State, ext: Externals, es: seq<Event>, id: Uuid)
    requires Fresh(st)
    ensures Fits(HeldFrom("", st, ext, es, id), Run(st, ext, es), ext, id)
  {
    FreshIsOk(st, ext);
    EmptyIsOk(st.index);
    RunFits("", st, ext, es, id);
  }

  // ----- a collection that holds both kinds of source -----

  /** In every reachable state of collections that transcripts share with other sources:
      filtering by organization is redundant, a filter by source type and source selects
      exactly the points of that source, and every transcript point belongs to a
      transcript of the organization. */
  lemma {:induction false} SharedSearchStaysHome(st: State, ext: Externals, es: seq<Event>, org: Uuid,
                                                 sourceType: string,
                                                 sourceId: Uuid)
    requires Fresh(st)
    ensures
      var now := Run(st, ext, es);
      var c := CollectionOf(now.index, org);
      && Wanted(c, org, None, None) == c
      && Wanted(c, org, Some(sourceType), None) == (map k | k in c && c[k].sourceType == sourceType :: c[k])
      && Wanted(c, org, Some(sourceType), Some(sourceId)) == PointsOf(c, sourceType, sourceId)
      && (forall k :: k in c ==> c[k].org == org)
      && (forall k :: k in c && c[k].sourceType == TRANSCRIPT ==>
            c[k].sourceId in now.rows && now.rows[c[k].sourceId].org == org)
  {
    FreshIsOk(st, ext);
    RunKeepsOk(st, ext, es);
    var now := Run(st, ext, es);
    var c := CollectionOf(now.index, org);
    assert OwnPayloads(c, org);
    OrganizationFilterIsRedundant(c, org, sourceType, sourceId);
    forall k | k in c && c[k].sourceType == TRANSCRIPT
      ensures c[k].sourceId in now.rows && now.rows[c[k].sourceId].org == org
    {
      HoldsLatestWrite(st, ext, es, c[k].sourceId);
      assert k in Points(now.index, org, c[k].sourceId);
    }
  }

  // ----- why the empty text is an exception -----

  /** Holding the chunks of one text is holding those of the empty text exactly if that
      text has none. */
  lemma {:induction false} HoldsNothingIff(interviews: map<Uuid, Option<Uuid>>, ix: Index, ext: Externals, id: Uuid,
                                           row: Transcript, held: string)
    requires Holds(interviews, ix, ext, id, row, held)
    requires row.interview in interviews && interviews[row.interview].Some?
    ensures IndexedAs(interviews, ix, ext, id, row, "") <==> Chunks(held) == []
  {
    var candidate := interviews[row.interview].value;
    NothingOfNothing(ext, row.org, id, candidate);
    if held != "" {
      SourcePointsOnePerChunk(ext, row.org, TRANSCRIPT, id, candidate, held);
    }
  }

  /** Holding no points is being indexed as any text without chunks, and as no other. */
  lemma {:induction false} NoPointsIff(interviews: map<Uuid, Option<Uuid>>, ix: Index, ext: Externals, id: Uuid,
                                       row: Transcript, text: string)
    requires Points(ix, row.org, id) == map[]
    requires row.interview in interviews && interviews[row.interview].Some?
    ensures IndexedAs(interviews, ix, ext, id, row, text) <==> Chunks(text) == []
  {
    var candidate := interviews[row.interview].value;
    if |Vectors(ext, Chunks(text))| == |Chunks(text)| {
      SourcePointsOnePerChunk(ext, row.org, TRANSCRIPT, id, candidate, text);
    }
  }

  /** Over every run: once a transcript is at rest, its points are those of its text exactly
      if that text is not empty, or the latest run that wrote its points left none: no run
      has, or one deleted them and failed, or the text it wrote had no chunks. After a
      teardown there are no points, so then it is exactly if the text has no chunks. */
  lemma {:induction false} AtRestIff(st: State, ext: Externals, es: seq<Event>, id: Uuid)
    requires Fresh(st) && id in Run(st, ext, es).rows && Run(st, ext, es).rows[id].text.Some?
    requires AtRest(Run(st, ext, es), id, Run(st, ext, es).rows[id].org)
    requires
      var now := Run(st, ext, es);
      now.rows[id].interview in now.interviews && now.interviews[now.rows[id].interview].Some?
    ensures
      var now := Run(st, ext, es);
      var row := now.rows[id];
      IndexedAs(now.interviews, now.index, ext, id, row, row.text.value)
      <==> if CollectionName(row.org) in now.index
           then row.text.value != "" || Chunks(HeldFrom("", st, ext, es, id)) == []
           else Chunks(row.text.value) == []
  {
    var now := Run(st, ext, es);
    var row := now.rows[id];
    if CollectionName(row.org) !in now.index {
      NoPointsIff(now.interviews, now.index, ext, id, row, row.text.value);
    } else if HasText(row) {
      IndexCatchesUp(st, ext, es, id);
    } else {
      HoldsLatestWrite(st, ext, es, id);
      HoldsNothingIff(now.interviews, now.index, ext, id, row, HeldFrom("", st, ext, es, id));
    }
  }

  const ALL_WORK := TaskCalls(Works, EmbedCalls(Works, Works, Works), Works)

  function SmoothIngest(id: Uuid, org: Uuid, interview: Uuid, intake: Intake): Event {
    Ingest(org, interview, id, intake, IngestCalls(Works, Works, Works, Works))
  }

  lemma {:induction false} FoundAgain(interviews: map<Uuid, Option<Uuid>>, rows: Rows, id: Uuid, intake: Intake)
    requires UniqueInterviews(rows) && id in rows
    ensures Ingested(interviews, rows, rows[id].org, rows[id].interview, id, intake, IngestCalls(Works, Works, Works, Works))
         == (rows[id := Filled(rows[id], intake)], Some(id), Returned)
  {
    assert id in OfInterview(rows, rows[id].org, rows[id].interview);
  }

  lemma {:induction false} SmoothlyIngested(st: State, ext: Externals, id: Uuid, intake: Intake)
    requires UniqueInterviews(st.rows) && id in st.rows
    ensures
      var row := st.rows[id];
      var rows := st.rows[id := Filled(row, intake)];
      && UniqueInterviews(rows)
      && Step(st, ext, SmoothIngest(id, row.org, row.interview, intake))
         == st.(rows := rows, sending := st.sending + multiset{(id, row.org)})
  {
    FoundAgain(st.interviews, st.rows, id, intake);
    FillKeepsInterviews(st.rows, id, Filled(st.rows[id], intake));
  }

  lemma {:induction false} SmoothlySent(st: State, ext: Externals, id: Uuid, org: Uuid)
    requires UniqueInterviews(st.rows) && (id, org) !in st.gaveUp && (id, org) in st.sending
    ensures Step(st, ext, Send(id, org, Works))
         == st.(sending := st.sending - multiset{(id, org)},
                queue := st.queue + multiset{Message(EmbedTranscript, id, org, 0)})
  {
    assert st.gaveUp - {(id, org)} == st.gaveUp;
  }

  lemma {:induction false} EmptyIsSkipped(st: State, ext: Externals, m: Message)
    requires UniqueInterviews(st.rows) && m in st.queue && st.active == None && TextToEmbed(st.rows, m).None?
    requires (m.id, m.org) !in st.gaveUp
    ensures Step(st, ext, Start(m, ALL_WORK)) == st.(queue := st.queue - multiset{m})
  {
    assert st.gaveUp - {(m.id, m.org)} == st.gaveUp;
  }

  /** The index at rest against the empty text. */
  lemma {:induction false} StaleIff(st: State, ext: Externals, id: Uuid, next: Transcript)
    requires id in st.rows && HasText(st.rows[id]) && RowOk(st, ext, id) && AtRest(st, id, st.rows[id].org)
    requires next.org == st.rows[id].org && next.interview == st.rows[id].interview
    ensures
      if CollectionName(st.rows[id].org) in st.index
      then IndexedAs(st.interviews, st.index, ext, id, next, "") <==> Chunks(st.rows[id].text.value) == []
      else Points(st.index, st.rows[id].org, id) == map[]
  {
    if CollectionName(st.rows[id].org) in st.index {
      HoldsNothingIff(st.interviews, st.index, ext, id, st.rows[id], st.rows[id].text.value);
    }
  }

  /** The state after the first two of the three steps. */
  lemma {:induction false} SmoothHalf(st: State, ext: Externals, id: Uuid, intake: Intake) returns (sent: State)
    requires UniqueInterviews(st.rows) && id in st.rows && (id, st.rows[id].org) !in st.gaveUp
    ensures
      var row := st.rows[id];
      var ingested := Step(st, ext, SmoothIngest(id, row.org, row.interview, intake));
      UniqueInterviews(ingested.rows) && sent == Step(ingested, ext, Send(id, row.org, Works))
    ensures UniqueInterviews(sent.rows)
    ensures sent == st.(rows := st.rows[id := Filled(st.rows[id], intake)],
                        queue := st.queue + multiset{Message(EmbedTranscript, id, st.rows[id].org, 0)})
  {
    var row := st.rows[id];
    SmoothlyIngested(st, ext, id, intake);
    var ingested := st.(rows := st.rows[id := Filled(row, intake)], sending := st.sending + multiset{(id, row.org)});
    SmoothlySent(ingested, ext, id, row.org);
    sent := Step(ingested, ext, Send(id, row.org, Works));
    assert st.sending + multiset{(id, row.org)} - multiset{(id, row.org)} == st.sending;
  }

  /** The state after all three, when nothing was going on before. */
  lemma {:induction false} SmoothRun(st: State, ext: Externals, id: Uuid, intake: Intake)
    returns (sent: State, now: State)
    requires UniqueInterviews(st.rows) && st.active == None && id in st.rows && intake.text == ""
    requires (id, st.rows[id].org) !in st.gaveUp
    ensures
      var row := st.rows[id];
      var ingested := Step(st, ext, SmoothIngest(id, row.org, row.interview, intake));
      && UniqueInterviews(ingested.rows)
      && sent == Step(ingested, ext, Send(id, row.org, Works)) && UniqueInterviews(sent.rows)
      && now == Step(sent, ext, Start(Message(EmbedTranscript, id, row.org, 0), ALL_WORK))
    ensures now == st.(rows := st.rows[id := Filled(st.rows[id], intake)])
  {
    var m := Message(EmbedTranscript, id, st.rows[id].org, 0);
    sent := SmoothHalf(st, ext, id, intake);
    EmptyIsSkipped(sent, ext, m);
    now := Step(sent, ext, Start(m, ALL_WORK));
    assert st.queue + multiset{m} - multiset{m} == st.queue;
  }

  /** Replacing a text by the empty text, sending the message and delivering it without any
      failure leaves the index as it was, since `embed_transcript` returns before it
      deletes; so the index is up to date afterwards exactly if the previous text, known
      before the call, had no chunks. */
  lemma {:induction false} EmptyTextIsNotIndexed(st: State, ext: Externals, id: Uuid, intake: Intake)
    returns (sent: State, now: State)
    requires Ok(st, ext) && st.active == None && id in st.rows && AtRest(st, id, st.rows[id].org)
    requires HasText(st.rows[id]) && intake.text == ""
    ensures
      var row := st.rows[id];
      var ingested := Step(st, ext, SmoothIngest(id, row.org, row.interview, intake));
      && UniqueInterviews(ingested.rows)
      && sent == Step(ingested, ext, Send(id, row.org, Works)) && UniqueInterviews(sent.rows)
      && now == Step(sent, ext, Start(Message(EmbedTranscript, id, row.org, 0), ALL_WORK))
    ensures now == st.(rows := now.rows) && id in now.rows && now.rows[id].text == Some("")
    ensures
      if CollectionName(st.rows[id].org) in st.index
      then IndexedAs(now.interviews, now.index, ext, id, now.rows[id], "") <==> Chunks(st.rows[id].text.value) == []
      else Points(now.index, st.rows[id].org, id) == map[]
  {
    sent, now := SmoothRun(st, ext, id, intake);
    StaleIff(st, ext, id, now.rows[id]);
  }

  // ----- and for how long -----

  /** No ingest of the run gives this transcript a text again. */
  predicate StaysEmpty(es: seq<Event>, row: Transcript) {
    forall i :: 0 <= i < |es| && es[i].Ingest? && es[i].org == row.org && es[i].interview == row.interview ==>
      es[i].intake.text == ""
  }

  /** An empty transcript that no running task is about. */
  ghost predicate Abandoned(st: State, id: Uuid, row: Transcript) {
    && id in st.rows && st.rows[id].org == row.org && st.rows[id].interview == row.interview && st.rows[id].text == Some("")
    && (st.active.Some? ==> st.active.value.message.id != id)
  }

  lemma {:induction false} IngestAbandons(st: State, ext: Externals, e: Event, id: Uuid, row: Transcript)
    requires UniqueInterviews(st.rows) && Abandoned(st, id, row) && e.Ingest?
    requires e.org == row.org && e.interview == row.interview ==> e.intake.text == ""
    ensures Abandoned(Step(st, ext, e), id, row)
  {
    IngestEffect(st.interviews, st.rows, e.org, e.interview, e.newId, e.intake, e.calls);
  }

  lemma {:induction false} FinishAbandons(st: State, ext: Externals, calls: TaskCalls, id: Uuid, row: Transcript)
    requires Ok(st, ext) && Abandoned(st, id, row)
    ensures Abandoned(Step(st, ext, Finish(calls)), id, row)
    ensures Step(st, ext, Finish(calls)).index.Keys == st.index.Keys
    ensures Points(Step(st, ext, Finish(calls)).index, row.org, id) == Points(st.index, row.org, id)
  {
    if st.active.Some? {
      FinishIs(st, ext, calls);
      IndexedEffect(st, ext, st.active.value.message.id, st.active.value.text, calls.index);
    }
  }

  lemma {:induction false} ElsewhereAbandons(st: State, ext: Externals, e: Event, id: Uuid, row: Transcript)
    requires UniqueInterviews(st.rows) && AllKeyed(st.index) && Abandoned(st, id, row) && e.Elsewhere?
    ensures Abandoned(Step(st, ext, e), id, row)
    ensures Step(st, ext, e).index.Keys == st.index.Keys
    ensures Points(Step(st, ext, e).index, row.org, id) == Points(st.index, row.org, id)
  {
    if e.sourceType != TRANSCRIPT {
      EmbeddingOutcome(st.index, ext, e.org, e.sourceType, e.sourceId, e.candidateId, e.text, e.other);
      OthersKeepPoints(st.index, ext, e.org, e.sourceType, e.sourceId, e.candidateId, e.text, e.other, row.org, id);
    }
  }

  lemma {:induction false} SameAbandons(st: State, next: State, id: Uuid, row: Transcript)
    requires Abandoned(st, id, row) && SameStores(st, next)
    requires next.active.Some? && next.active != st.active ==>
      TextToEmbed(st.rows, next.active.value.message).Some?
    ensures Abandoned(next, id, row) && Points(next.index, row.org, id) == Points(st.index, row.org, id)
  {
  }

  /** The points as long as there is a collection to hold them. */
  ghost predicate Keeps(st: State, next: State, org: Uuid, id: Uuid) {
    && next.index.Keys <= st.index.Keys
    && Points(next.index, org, id) == if CollectionName(org) in next.index then Points(st.index, org, id) else map[]
  }

  lemma {:induction false} TearDownAbandons(st: State, ext: Externals, org: Uuid, exists_: Call, delete: Call, id: Uuid,
                                            row: Transcript)
    requires Abandoned(st, id, row)
    ensures
      var next := st.(index := TornDown(st.index, org, exists_, delete).0);
      Abandoned(next, id, row) && Keeps(st, next, row.org, id)
  {
    TornDownEffect(st.index, org, exists_, delete, row.org);
  }

  lemma {:induction false} SameKeeps(st: State, next: State, org: Uuid, id: Uuid)
    requires next.index.Keys == st.index.Keys && Points(next.index, org, id) == Points(st.index, org, id)
    ensures Keeps(st, next, org, id)
  {
  }

  lemma {:induction false} StepAbandons(st: State, ext: Externals, e: Event, id: Uuid, row: Transcript)
    requires Ok(st, ext) && Abandoned(st, id, row)
    requires e.Ingest? && e.org == row.org && e.interview == row.interview ==> e.intake.text == ""
    ensures Abandoned(Step(st, ext, e), id, row) && Keeps(st, Step(st, ext, e), row.org, id)
  {
    var next := Step(st, ext, e);
    match e
    case Ingest(_, _, _, _, _) =>
      IngestAbandons(st, ext, e, id, row);
      SameKeeps(st, next, row.org, id);
    case Send(i, org, call) =>
      SendWritesNothing(st, ext, i, org, call);
      SameAbandons(st, next, id, row);
      SameKeeps(st, next, row.org, id);
    case Publish(m) =>
      PublishWritesNothing(st, ext, m);
      SameAbandons(st, next, id, row);
      SameKeeps(st, next, row.org, id);
    case Start(m, calls) =>
      StartWritesNothing(st, ext, m, calls);
      SameAbandons(st, next, id, row);
      SameKeeps(st, next, row.org, id);
    case Finish(calls) =>
      FinishAbandons(st, ext, calls, id, row);
      SameKeeps(st, next, row.org, id);
    case Elsewhere(_, _, _, _, _, _) =>
      ElsewhereAbandons(st, ext, e, id, row);
      SameKeeps(st, next, row.org, id);
    case TearDown(org, exists_, delete) => TearDownAbandons(st, ext, org, exists_, delete, id, row);
  }

  /** The old points stay: as long as nobody gives the transcript a text again, no run
      removes them but by tearing the whole collection down. */
  lemma {:induction false} OldPointsStay(st: State, ext: Externals, es: seq<Event>, id: Uuid, row: Transcript)
    requires Ok(st, ext) && Abandoned(st, id, row) && StaysEmpty(es, row)
    ensures Keeps(st, Run(st, ext, es), row.org, id)
    decreases |es|
  {
    if es != [] {
      StepAbandons(st, ext, es[0], id, row);
      StepKeepsOk(st, ext, es[0]);
      OldPointsStay(Step(st, ext, es[0]), ext, es[1..], id, row);
    }
  }
}
