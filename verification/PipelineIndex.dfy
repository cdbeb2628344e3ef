/** What the index holds of a resume, exactly: decided by the latest run that wrote it. */
module PipelineIndex {
  import opened Basics
  import opened Encodings
  import opened Tasks
  import opened Chunking
  import opened Schema
  import opened VectorStore
  import opened Externals
  import opened Embedding
  import opened Pipeline
  import opened PipelineFacts
  import opened PipelineInvariants
  import opened PipelineTheorems

  // ----- one attempt -----

  /** An attempt gets as far as `_embed_and_upsert`. */
  predicate Reaches(w: World, ext: Externals, m: Message, calls: TaskCalls) {
    && m.kind == EmbedResume && VisibleResume(w.db, m.org, m.id).Some?
    && calls.load == Works && calls.download == Works
    && FileText(ext, w.objects, w.db.resumes[m.id].key).Some?
  }

  /** What an attempt does to the points of its resume. */
  function AttemptWrites(w: World, ext: Externals, m: Message, calls: TaskCalls): Write {
    if !Reaches(w, ext, m, calls) then NotTouched
    else WriteOf(w.index, ext, m.org, FileText(ext, w.objects, w.db.resumes[m.id].key).value, calls.index)
  }

  function ResumePoints(ix: Index, org: Uuid, id: Uuid): Collection {
    PointsOf(CollectionOf(ix, org), RESUME, id)
  }

  /** The points after a write. */
  function After(was: Collection, full: Collection, write: Write): Collection {
    match write
    case NotTouched => was
    case NowEmpty => map[]
    case NowFull => full
  }

  lemma {:induction false} WorkReaches(w: World, ext: Externals, m: Message, row: Resume, calls: TaskCalls)
    requires calls.download == Works && FileText(ext, w.objects, row.key).Some?
    ensures
      var (ix, end) := SourceEmbedded(w.index, ext, m.org, RESUME, m.id, row.candidate,
                                      FileText(ext, w.objects, row.key).value, calls.index);
      var (jx, work) := EmbedWork(w, ext, m, row, calls);
      jx == ix && (work.Gave? <==> end == Returned)
  {
  }

  lemma {:induction false} WorkStops(w: World, ext: Externals, m: Message, row: Resume, calls: TaskCalls)
    requires calls.download != Works || FileText(ext, w.objects, row.key).None?
    ensures var (ix, work) := EmbedWork(w, ext, m, row, calls); ix == w.index && !work.Gave?
  {
  }

  lemma {:induction false} WorkExactly(w: World, ext: Externals, m: Message, calls: TaskCalls)
    requires m.kind == EmbedResume && VisibleResume(w.db, m.org, m.id).Some? && calls.load == Works
    ensures
      var row := w.db.resumes[m.id];
      var (ix, work) := EmbedWork(w, ext, m, row, calls);
      && ResumePoints(ix, m.org, m.id)
         == After(ResumePoints(w.index, m.org, m.id), PointMap(FilePoints(ext, w.objects, m.id, row)),
                  AttemptWrites(w, ext, m, calls))
      && (work.Gave? ==> AttemptWrites(w, ext, m, calls) == NowFull)
  {
    var row := w.db.resumes[m.id];
    if Reaches(w, ext, m, calls) {
      var text := FileText(ext, w.objects, row.key).value;
      EmbeddingExactly(w.index, ext, m.org, RESUME, m.id, row.candidate, text, calls.index);
      WorkReaches(w, ext, m, row, calls);
    } else {
      WorkStops(w, ext, m, row, calls);
    }
  }

  /** The status an attempt leaves: its own verdict if it commits, else the old one. */
  ghost predicate StatusCases(row: Resume, next: Resume, write: Write, end: End) {
    || (next == row && end != Returned)
    || (next.embeddingStatus == EmbedFailed && end == Returned)
    || (next.embeddingStatus == Embedded && end == Returned && write == NowFull)
  }

  lemma {:induction false} SavedStatus(w: World, m: Message, row: Resume, work: Work<()>, calls: TaskCalls,
                                       write: Write)
    requires m.id in w.db.resumes && w.db.resumes[m.id] == row && (work.Gave? ==> write == NowFull)
    ensures
      var (v, end) := EmbedSaved(w, m, row, work, calls);
      && m.id in v.db.resumes && v.index == w.index && StatusCases(row, v.db.resumes[m.id], write, end)
  {
  }

  /** An embed attempt, exactly. */
  lemma {:induction false} EmbedExactly(w: World, ext: Externals, m: Message, calls: TaskCalls)
    requires m.kind == EmbedResume && VisibleResume(w.db, m.org, m.id).Some?
    ensures
      var row := w.db.resumes[m.id];
      var (v, end) := EmbedRun(w, ext, m, calls);
      && ResumePoints(v.index, m.org, m.id)
         == After(ResumePoints(w.index, m.org, m.id), PointMap(FilePoints(ext, w.objects, m.id, row)),
                  AttemptWrites(w, ext, m, calls))
      && m.id in v.db.resumes
      && StatusCases(row, v.db.resumes[m.id], AttemptWrites(w, ext, m, calls), end)
  {
    if calls.load == Works {
      var row := w.db.resumes[m.id];
      var (ix, work) := EmbedWork(w, ext, m, row, calls);
      WorkExactly(w, ext, m, calls);
      SavedStatus(w.(index := ix), m, row, work, calls, AttemptWrites(w, ext, m, calls));
    }
  }

  // ----- histories -----

  /** Of one resume: what the latest write left, and whether a task for it used up its
      attempts since the index was last written in full. */
  datatype History = History(latest: Option<Write>, usedUp: bool)

  const NEVER := History(None, false)

  /** The history after one more attempt. */
  function Next(h: History, write: Write, lastAttempt: bool): History {
    match write
    case NotTouched => h.(usedUp := h.usedUp || lastAttempt)
    case NowEmpty => History(Some(NowEmpty), h.usedUp || lastAttempt)
    case NowFull => History(Some(NowFull), lastAttempt)
  }

  predicate EmbedsResume(m: Message, id: Uuid, org: Uuid) {
    m.kind == EmbedResume && m.id == id && m.org == org
  }

  /** The history after one more event. */
  function Noted(h: History, w: World, ext: Externals, e: Event, id: Uuid): History {
    if !e.Deliver? || e.message !in w.queue || id !in w.db.resumes
       || !EmbedsResume(e.message, id, w.db.resumes[id].org) then h
    else
      Next(h, AttemptWrites(w, ext, e.message, e.calls),
           GivenUp(e.message, EmbedRun(w, ext, e.message, e.calls).1))
  }

  function HistoryFrom(h: History, w: World, ext: Externals, es: seq<Event>, id: Uuid): History
    decreases |es|
  {
    if es == [] then h else HistoryFrom(Noted(h, w, ext, es[0], id), Step(w, ext, es[0]), ext, es[1..], id)
  }

  ghost predicate Waiting(queue: multiset<Message>, id: Uuid, org: Uuid) {
    exists m :: m in queue && EmbedsResume(m, id, org)
  }

  /** The latest write decides the points; `embedded` means that there was one, and if it
      was not a full one, that a task is waiting or used up. */
  ghost predicate Agrees(h: History, points: Collection, full: Collection, status: EmbeddingStatus, waiting: bool) {
    && points == (if h.latest == Some(NowFull) then full else map[])
    && (status == Embedded ==> h.latest.Some?)
    && (status == Embedded && h.latest != Some(NowFull) ==> waiting || h.usedUp)
    && h.latest != Some(NotTouched)
  }

  ghost predicate RowFits(h: History, w: World, ext: Externals, id: Uuid, row: Resume) {
    CollectionName(row.org) in w.index ==>
      Agrees(h, ResumePoints(w.index, row.org, id), PointMap(FilePoints(ext, w.objects, id, row)), row.embeddingStatus,
             Waiting(w.queue, id, row.org))
  }

  /** What a history says of the state it led to. */
  ghost predicate Fits(h: History, w: World, ext: Externals, id: Uuid) {
    if id !in w.db.resumes then h.latest == None
    else RowFits(h, w, ext, id, w.db.resumes[id])
  }

  lemma {:induction false} AttemptAgrees(h: History, was: Collection, full: Collection, row: Resume, next: Resume,
                                         write: Write, end: End, waiting: bool, waits: bool, lastAttempt: bool)
    requires Agrees(h, was, full, row.embeddingStatus, waiting) && StatusCases(row, next, write, end)
    requires end != Returned ==> waits || lastAttempt
    ensures Agrees(Next(h, write, lastAttempt), After(was, full, write), full, next.embeddingStatus, waits)
  {
  }

  /** An event that is not about this resume. */
  lemma {:induction false} OthersFit(h: History, w: World, u: World, ext: Externals, id: Uuid, row: Resume,
                                     next: Resume)
    requires RowFits(h, w, ext, id, row) && SameIdentity(row, next) && row.embeddingStatus == next.embeddingStatus
    requires FilePoints(ext, u.objects, id, next) == FilePoints(ext, w.objects, id, row)
    requires CollectionName(row.org) in u.index ==>
      CollectionName(row.org) in w.index && ResumePoints(u.index, row.org, id) == ResumePoints(w.index, row.org, id)
    requires Waiting(w.queue, id, row.org) ==> Waiting(u.queue, id, row.org)
    ensures RowFits(h, u, ext, id, next)
  {
  }

  lemma {:induction false} WaitingGrows(q: multiset<Message>, r: multiset<Message>, id: Uuid, org: Uuid)
    requires forall m :: m in q && EmbedsResume(m, id, org) ==> m in r
    ensures Waiting(q, id, org) ==> Waiting(r, id, org)
  {
    if m :| m in q && EmbedsResume(m, id, org) {
      assert m in r;
    }
  }

  lemma {:induction false} UnfinishedWaits(queue: multiset<Message>, m: Message, end: End, ack: Call)
    requires m in queue && m.kind == EmbedResume && end != Returned
    ensures Waiting(SettledQueue(queue, m, end, ack), m.id, m.org) || GivenUp(m, end)
  {
    var after := SettledQueue(queue, m, end, ack);
    if end == Lost {
      assert m in after && EmbedsResume(m, m.id, m.org);
    } else if m.retries < MAX_RETRIES {
      assert Again(m) in after && EmbedsResume(Again(m), m.id, m.org);
    }
  }

  lemma {:induction false} OwnFrame(w: World, ext: Externals, m: Message, calls: TaskCalls)
    requires m.kind == EmbedResume && VisibleResume(w.db, m.org, m.id).Some?
    ensures
      var v := EmbedRun(w, ext, m, calls).0;
      && v.queue == w.queue && v.objects == w.objects && v.index.Keys == w.index.Keys
      && m.id in v.db.resumes && SameIdentity(w.db.resumes[m.id], v.db.resumes[m.id])
  {
    var row := w.db.resumes[m.id];
    var (v, end) := EmbedRun(w, ext, m, calls);
    EmbedEffect(w, ext, m, calls);
    var completed: bool :| EmbedCase(w, ext, m, row, calls, v, end, completed);
    EmbedIndexFrame(w, ext, m, row, calls, v.index, completed);
  }

  /** The attempt's own resume. */
  lemma {:induction false} OwnFits(h: History, w: World, ext: Externals, m: Message, calls: TaskCalls, v: World,
                                   end: End)
    requires m in w.queue && m.kind == EmbedResume && VisibleResume(w.db, m.org, m.id).Some?
    requires RowFits(h, w, ext, m.id, w.db.resumes[m.id]) && (v, end) == EmbedRun(w, ext, m, calls)
    ensures m.id in v.db.resumes
    ensures RowFits(Next(h, AttemptWrites(w, ext, m, calls), GivenUp(m, end)), Pipeline.Settled(v, m, end, calls.ack), ext,
                    m.id, v.db.resumes[m.id])
  {
    OwnFrame(w, ext, m, calls);
    EmbedExactly(w, ext, m, calls);
    if end != Returned {
      UnfinishedWaits(w.queue, m, end, calls.ack);
    }
    if CollectionName(m.org) in w.index {
      var row, next := w.db.resumes[m.id], v.db.resumes[m.id];
      assert FilePoints(ext, v.objects, m.id, next) == FilePoints(ext, w.objects, m.id, row);
      AttemptAgrees(h, ResumePoints(w.index, m.org, m.id), PointMap(FilePoints(ext, w.objects, m.id, row)), row, next,
                    AttemptWrites(w, ext, m, calls), end, Waiting(w.queue, m.id, m.org),
                    Waiting(SettledQueue(w.queue, m, end, calls.ack), m.id, m.org), GivenUp(m, end));
    }
  }

  // ----- every event keeps histories in step -----

  /** What a task leaves of a resume that it does not embed. */
  ghost predicate LeftAlone(w: World, v: World, ext: Externals, id: Uuid) {
    && id in w.db.resumes && id in v.db.resumes && SameIdentity(w.db.resumes[id], v.db.resumes[id])
    && w.db.resumes[id].embeddingStatus == v.db.resumes[id].embeddingStatus
    && v.objects == w.objects && w.queue <= v.queue && v.index.Keys == w.index.Keys
    && ResumePoints(v.index, w.db.resumes[id].org, id) == ResumePoints(w.index, w.db.resumes[id].org, id)
  }

  lemma {:induction false} ParseLeavesAlone(w: World, ext: Externals, m: Message, calls: TaskCalls, v: World,
                                            end: End, id: Uuid)
    requires ParseCases(w, ext, m, calls, v, end) && id in w.db.resumes
    ensures LeftAlone(w, v, ext, id)
  {
    ParseFrame(w, ext, m, calls, v, end);
    if id == m.id && w.db.resumes[id].org == m.org {
      ParseOwnRow(w, ext, m, calls, v, end);
    }
  }

  lemma {:induction false} EmbedLeavesPoints(w: World, ext: Externals, m: Message, row: Resume, calls: TaskCalls,
                                             ix: Index,
                                             completed: bool, id: Uuid, other: Resume)
    requires IndexCases(w, ext, m, row, calls, ix, completed) && (id != m.id || other.org != m.org)
    requires IndexedOk(ext, w, id, other)
    ensures ix.Keys == w.index.Keys && ResumePoints(ix, other.org, id) == ResumePoints(w.index, other.org, id)
  {
    EmbedIndexFrame(w, ext, m, row, calls, ix, completed);
    CollectionNameInjective(other.org, m.org);
    if other.org == m.org {
      IndexedIsKeyed(ext, w, id, other);
      EmbedIndexOthers(w, ext, m, row, calls, ix, completed, id);
    }
  }

  lemma {:induction false} EmbedLeavesAlone(w: World, ext: Externals, m: Message, calls: TaskCalls, v: World,
                                            end: End, id: Uuid)
    requires EmbedCases(w, ext, m, calls, v, end) && id in w.db.resumes && (id != m.id || w.db.resumes[id].org != m.org)
    requires IndexedOk(ext, w, id, w.db.resumes[id])
    ensures LeftAlone(w, v, ext, id)
  {
    EmbedFrame(w, ext, m, calls, v, end);
    var visible := VisibleResume(w.db, m.org, m.id);
    if visible.Some? {
      var completed: bool :| EmbedCase(w, ext, m, visible.value, calls, v, end, completed);
      EmbedLeavesPoints(w, ext, m, visible.value, calls, v.index, completed, id, w.db.resumes[id]);
    }
  }

  lemma {:induction false} TaskLeavesAlone(w: World, ext: Externals, m: Message, calls: TaskCalls, id: Uuid)
    requires ResumesOk(w, ext) && id in w.db.resumes && !EmbedsResume(m, id, w.db.resumes[id].org)
    ensures LeftAlone(w, TaskRun(w, ext, m, calls).0, ext, id)
  {
    var (v, end) := TaskRun(w, ext, m, calls);
    match m.kind
    case ParseResume =>
      ParseEffect(w, ext, m, calls);
      ParseLeavesAlone(w, ext, m, calls, v, end, id);
    case EmbedResume =>
      EmbedEffect(w, ext, m, calls);
      EmbedLeavesAlone(w, ext, m, calls, v, end, id);
    case ResumeVerdict =>
      VerdictEffect(w, ext, m, calls);
  }

  lemma {:induction false} LeftAloneFits(h: History, w: World, v: World, ext: Externals, m: Message, end: End,
                                         ack: Call, id: Uuid)
    requires LeftAlone(w, v, ext, id) && !EmbedsResume(m, id, w.db.resumes[id].org)
    requires RowFits(h, w, ext, id, w.db.resumes[id])
    ensures RowFits(h, Pipeline.Settled(v, m, end, ack), ext, id, v.db.resumes[id])
  {
    var u := Pipeline.Settled(v, m, end, ack);
    var row := w.db.resumes[id];
    WaitingGrows(w.queue, u.queue, id, row.org);
    assert FilePoints(ext, u.objects, id, v.db.resumes[id]) == FilePoints(ext, w.objects, id, row);
    OthersFit(h, w, u, ext, id, row, v.db.resumes[id]);
  }

  lemma {:induction false} TaskKeepsKeys(w: World, ext: Externals, m: Message, calls: TaskCalls)
    ensures TaskRun(w, ext, m, calls).0.db.resumes.Keys == w.db.resumes.Keys
  {
    var (v, end) := TaskRun(w, ext, m, calls);
    match m.kind
    case ParseResume =>
      ParseEffect(w, ext, m, calls);
      ParseFrame(w, ext, m, calls, v, end);
    case EmbedResume =>
      EmbedEffect(w, ext, m, calls);
      EmbedFrame(w, ext, m, calls, v, end);
    case ResumeVerdict =>
      VerdictEffect(w, ext, m, calls);
  }

  lemma {:induction false} DeliveryFits(h: History, w: World, ext: Externals, m: Message, calls: TaskCalls, id: Uuid)
    requires ResumesOk(w, ext) && Fits(h, w, ext, id) && m in w.queue
    ensures Fits(Noted(h, w, ext, Deliver(m, calls), id), Delivered(w, ext, m, calls), ext, id)
  {
    var (v, end) := TaskRun(w, ext, m, calls);
    if id in w.db.resumes && EmbedsResume(m, id, w.db.resumes[id].org) {
      OwnFits(h, w, ext, m, calls, v, end);
    } else if id in w.db.resumes {
      TaskLeavesAlone(w, ext, m, calls, id);
      LeftAloneFits(h, w, v, ext, m, end, calls.ack, id);
    } else {
      TaskKeepsKeys(w, ext, m, calls);
    }
  }

  lemma {:induction false} SubmitFits(h: History, w: World, u: World, ext: Externals, sub: Submission,
                                      calls: SubmitCalls, id: Uuid)
    requires ResumesOk(w, ext) && CollectionsOk(w) && calls.resume !in w.db.resumes && Fits(h, w, ext, id)
    requires SubmitFrame(w, u, sub, calls) && OneResumeMore(w, u, calls.resume)
    ensures Fits(h, u, ext, id)
  {
    if id in w.db.resumes {
      var row := w.db.resumes[id];
      UploadDisturbsNoFile(ext, w.objects, id, row, sub, calls);
      WaitingGrows(w.queue, u.queue, id, row.org);
      OthersFit(h, w, u, ext, id, row, row);
    } else if id in u.db.resumes {
      var candidate := RowsEffect(w.db, sub, calls);
    }
  }

  lemma {:induction false} IndexOnlyFits(h: History, w: World, ix: Index, ext: Externals, id: Uuid)
    requires Fits(h, w, ext, id)
    requires id in w.db.resumes && CollectionName(w.db.resumes[id].org) in ix ==>
      CollectionName(w.db.resumes[id].org) in w.index
      && ResumePoints(ix, w.db.resumes[id].org, id) == ResumePoints(w.index, w.db.resumes[id].org, id)
    ensures Fits(h, w.(index := ix), ext, id)
  {
    if id in w.db.resumes {
      OthersFit(h, w, w.(index := ix), ext, id, w.db.resumes[id], w.db.resumes[id]);
    }
  }

  lemma {:induction false} TearDownFits(h: History, w: World, ext: Externals, org: Uuid, exists_: Call, delete: Call,
                                        id: Uuid)
    requires Fits(h, w, ext, id)
    ensures Fits(h, w.(index := TornDown(w.index, org, exists_, delete).0), ext, id)
  {
    IndexOnlyFits(h, w, TornDown(w.index, org, exists_, delete).0, ext, id);
  }

  lemma {:induction false} TranscriptFits(h: History, w: World, ext: Externals, org: Uuid, t: Uuid, candidate: Uuid,
                                          text: string, calls: EmbedCalls, id: Uuid)
    requires ResumesOk(w, ext) && Fits(h, w, ext, id)
    ensures Fits(h, w.(index := SourceEmbedded(w.index, ext, org, TRANSCRIPT, t, candidate, text, calls).0), ext, id)
  {
    var ix := SourceEmbedded(w.index, ext, org, TRANSCRIPT, t, candidate, text, calls).0;
    if id in w.db.resumes {
      var row := w.db.resumes[id];
      EmbeddingOutcome(w.index, ext, org, TRANSCRIPT, t, candidate, text, calls);
      CollectionNameInjective(row.org, org);
      if row.org == org {
        assert IndexedOk(ext, w, id, row);
        IndexedIsKeyed(ext, w, id, row);
        TranscriptKeepsCollection(w, ext, org, t, candidate, text, calls, id);
      }
    }
    IndexOnlyFits(h, w, ix, ext, id);
  }

  lemma {:induction false} PublishFits(h: History, w: World, ext: Externals, m: Message, id: Uuid)
    requires Fits(h, w, ext, id)
    ensures Fits(h, w.(queue := w.queue + multiset{m}), ext, id)
  {
    if id in w.db.resumes {
      var u, row := w.(queue := w.queue + multiset{m}), w.db.resumes[id];
      WaitingGrows(w.queue, u.queue, id, row.org);
      OthersFit(h, w, u, ext, id, row, row);
    }
  }

  lemma {:induction false} StepFits(h: History, w: World, ext: Externals, e: Event, id: Uuid)
    requires Healthy(w, ext) && FreshIds(w, e) && Fits(h, w, ext, id)
    ensures Fits(Noted(h, w, ext, e, id), Step(w, ext, e), ext, id)
  {
    match e
    case Submit(sub, calls) =>
      var (u, end) := SubmitRun(w, sub, calls);
      SubmitEffect(w, sub, calls);
      SubmitHasFrame(w, u, sub, calls, end);
      SubmitAddsOneResume(w, u, sub, calls);
      SubmitFits(h, w, u, ext, sub, calls, id);
    case Publish(m) => PublishFits(h, w, ext, m, id);
    case Deliver(m, calls) =>
      if m in w.queue {
        DeliveryFits(h, w, ext, m, calls, id);
      }
    case TearDown(org, exists_, delete) => TearDownFits(h, w, ext, org, exists_, delete, id);
    case IndexTranscript(org, t, candidate, text, calls) =>
      TranscriptFits(h, w, ext, org, t, candidate, text, calls, id);
  }

  lemma {:induction false} RunFits(h: History, w: World, ext: Externals, es: seq<Event>, id: Uuid)
    requires Healthy(w, ext) && FreshRun(w, ext, es) && Fits(h, w, ext, id)
    ensures Fits(HistoryFrom(h, w, ext, es, id), Steps(w, ext, es), ext, id)
    decreases |es|
  {
    if es != [] {
      StepFits(h, w, ext, es[0], id);
      StepKeepsHealthy(w, ext, es[0]);
      RunFits(Noted(h, w, ext, es[0], id), Step(w, ext, es[0]), ext, es[1..], id);
    }
  }

  // ----- what it means -----

  /** One point per chunk of the file, at its position, with its text and vector. */
  ghost predicate FullyIndexed(ext: Externals, w: World, id: Uuid, row: Resume) {
    && CollectionName(row.org) in w.index && FileText(ext, w.objects, row.key).Some?
    && var chunks := Chunks(FileText(ext, w.objects, row.key).value);
       var points := PointsOf(w.index[CollectionName(row.org)], RESUME, id);
       && |Vectors(ext, chunks)| == |chunks| == |points|
       && forall i :: 0 <= i < |chunks| ==>
            PointId(RESUME, id, i) in points
            && points[PointId(RESUME, id, i)]
               == Point(row.org, RESUME, id, row.candidate, i, chunks[i], Vectors(ext, chunks)[i])
  }

  /** The file has nothing to index. */
  ghost predicate Chunkless(ext: Externals, objects: map<string, Bytes>, key: string) {
    FileText(ext, objects, key).Some? && Chunks(FileText(ext, objects, key).value) == []
  }

  /** For a file that can be embedded, holding exactly its points is being fully indexed. */
  lemma {:induction false} FullIffPoints(ext: Externals, w: World, id: Uuid, row: Resume)
    requires Embeddable(ext, w.objects, row.key) && CollectionName(row.org) in w.index
    requires ResumePoints(w.index, row.org, id) in {map[], PointMap(FilePoints(ext, w.objects, id, row))}
    ensures FullyIndexed(ext, w, id, row)
         <==> ResumePoints(w.index, row.org, id) == PointMap(FilePoints(ext, w.objects, id, row))
    ensures PointMap(FilePoints(ext, w.objects, id, row)) == map[] <==> Chunkless(ext, w.objects, row.key)
  {
    SourcePointsOnePerChunk(ext, row.org, RESUME, id, row.candidate, FileText(ext, w.objects, row.key).value);
  }

  lemma {:induction false} FitMeans(h: History, w: World, ext: Externals, id: Uuid)
    requires ResumesOk(w, ext) && Fits(h, w, ext, id) && id in w.db.resumes
    requires CollectionName(w.db.resumes[id].org) in w.index
    ensures
      var row := w.db.resumes[id];
      var points := PointsOf(w.index[CollectionName(row.org)], RESUME, id);
      && points == (if h.latest == Some(NowFull) then PointMap(FilePoints(ext, w.objects, id, row)) else map[])
      && (forall k :: k in points ==> points[k] in FilePoints(ext, w.objects, id, row))
      && (row.embeddingStatus == Embedded ==>
            && (FullyIndexed(ext, w, id, row) <==> h.latest == Some(NowFull) || Chunkless(ext, w.objects, row.key))
            && (FullyIndexed(ext, w, id, row) || Waiting(w.queue, id, row.org) || h.usedUp))
  {
    var row := w.db.resumes[id];
    assert RowOk(ext, w.objects, id, row);
    PointMapKeyed(FilePoints(ext, w.objects, id, row));
    if row.embeddingStatus == Embedded {
      FullIffPoints(ext, w, id, row);
    }
  }

  /** The index of a resume in every reachable state. It holds the chunks of its own file,
      all of them or none. A resume whose status is `embedded` is fully indexed if and only
      if the latest write was a full one, or there is nothing to index; and if it is not,
      a task for it is waiting or was used up since the latest full write. */
  lemma {:induction false} StatusAgreesWithIndex(start: World, ext: Externals, es: seq<Event>, id: Uuid)
    requires Start(start) && FreshRun(start, ext, es) && id in Steps(start, ext, es).db.resumes
    requires CollectionName(Steps(start, ext, es).db.resumes[id].org) in Steps(start, ext, es).index
    ensures
      var w := Steps(start, ext, es);
      var row := w.db.resumes[id];
      var points := PointsOf(w.index[CollectionName(row.org)], RESUME, id);
      var h := HistoryFrom(NEVER, start, ext, es, id);
      && points == (if h.latest == Some(NowFull) then PointMap(FilePoints(ext, w.objects, id, row)) else map[])
      && (forall k :: k in points ==> points[k] in FilePoints(ext, w.objects, id, row))
      && (row.embeddingStatus == Embedded ==>
            && (FullyIndexed(ext, w, id, row) <==> h.latest == Some(NowFull) || Chunkless(ext, w.objects, row.key))
            && (FullyIndexed(ext, w, id, row) || Waiting(w.queue, id, row.org) || h.usedUp))
  {
    StartIsHealthy(start, ext);
    HealthyForever(start, ext, es);
    RunFits(NEVER, start, ext, es, id);
    FitMeans(HistoryFrom(NEVER, start, ext, es, id), Steps(start, ext, es), ext, id);
  }

  // ----- exactly when a step breaks the agreement -----

  /** An embed task for a resume that has chunks to index, with its collection in place. */
  ghost predicate Indexable(w: World, ext: Externals, m: Message) {
    && m.kind == EmbedResume && VisibleResume(w.db, m.org, m.id).Some? && CollectionName(m.org) in w.index
    && var key := w.db.resumes[m.id].key;
       Embeddable(ext, w.objects, key) && !Chunkless(ext, w.objects, key)
  }

  /** `embedded` is committed, but the points are not all there. */
  ghost predicate Broken(ext: Externals, w: World, id: Uuid) {
    id in w.db.resumes && w.db.resumes[id].embeddingStatus == Embedded && !FullyIndexed(ext, w, id, w.db.resumes[id])
  }

  /** The calls reach the delete, the old points go, the new ones do not come, and the
      failure is not committed. */
  predicate AttemptBreaks(calls: TaskCalls) {
    && calls.load == calls.download == calls.index.embed == Works
    && ((calls.index.delete == RaisesLate && calls.commit != Works)
        || (calls.index.delete == Works
            && (calls.index.upsert == Dies || (calls.index.upsert == Raises && calls.commit != Works))))
  }

  lemma {:induction false} IndexableWrites(w: World, ext: Externals, m: Message, calls: TaskCalls)
    requires Indexable(w, ext, m)
    ensures AttemptWrites(w, ext, m, calls) == NowEmpty <==>
      && calls.load == calls.download == calls.index.embed == Works
      && (calls.index.delete == RaisesLate
          || (calls.index.delete == Works && (calls.index.upsert == Raises || calls.index.upsert == Dies)))
  {
  }

  /** How an attempt that empties the index ends. */
  lemma {:induction false} EmptyingWork(w: World, ext: Externals, m: Message, calls: TaskCalls)
    requires Indexable(w, ext, m) && AttemptWrites(w, ext, m, calls) == NowEmpty
    ensures EmbedWork(w, ext, m, w.db.resumes[m.id], calls).1
         == if calls.index.delete == Works && calls.index.upsert == Dies then Died else Threw
  {
    var row := w.db.resumes[m.id];
    IndexableWrites(w, ext, m, calls);
    var points := SourcePoints(ext, m.org, RESUME, m.id, row.candidate, FileText(ext, w.objects, row.key).value);
    assert points != [];
    assert SourceDeleted(w.index, m.org, RESUME, m.id, calls.index.delete).1
        == if calls.index.delete == Works then Returned else Raised;
  }

  lemma {:induction false} EmptyingEnd(w: World, ext: Externals, m: Message, calls: TaskCalls)
    requires Indexable(w, ext, m) && AttemptWrites(w, ext, m, calls) == NowEmpty
    ensures EmbedRun(w, ext, m, calls).1 != Returned <==> AttemptBreaks(calls)
  {
    var row := w.db.resumes[m.id];
    IndexableWrites(w, ext, m, calls);
    EmptyingWork(w, ext, m, calls);
    var (ix, work) := EmbedWork(w, ext, m, row, calls);
    assert EmbedRun(w, ext, m, calls) == EmbedSaved(w.(index := ix), m, row, work, calls);
  }

  /** A collection that agrees with another of the same size on all its ids is that one. */
  lemma {:induction false} SameBySize(full: Collection, held: Collection)
    requires |full| == |held| && forall k :: k in full ==> k in held && held[k] == full[k]
    ensures held == full
  {
    assert full.Keys <= held.Keys;
    assert |held.Keys - full.Keys| == 0;
  }

  /** Every id of a source's points is that of a chunk. */
  lemma {:induction false} IdsOfChunks(points: seq<Point>, id: Uuid, k: string) returns (i: nat)
    requires Numbered(points, RESUME, id) && k in PointMap(points)
    ensures i < |points| && k == PointId(RESUME, id, i) && PointMap(points)[k] == points[i]
  {
    PointMapHolds(points, RESUME, id);
    i :| 0 <= i < |points| && k == IdOf(points[i]);
  }

  /** Being fully indexed leaves no room for any other point. */
  lemma {:induction false} FullIsExact(ext: Externals, w: World, id: Uuid, row: Resume)
    requires FullyIndexed(ext, w, id, row)
    ensures ResumePoints(w.index, row.org, id) == PointMap(FilePoints(ext, w.objects, id, row))
  {
    var text := FileText(ext, w.objects, row.key).value;
    var points := SourcePoints(ext, row.org, RESUME, id, row.candidate, text);
    var held, full := ResumePoints(w.index, row.org, id), PointMap(points);
    SourcePointsOnePerChunk(ext, row.org, RESUME, id, row.candidate, text);
    forall k | k in full
      ensures k in held && held[k] == full[k]
    {
      var i := IdsOfChunks(points, id, k);
    }
    SameBySize(full, held);
  }

  lemma {:induction false} SettlingKeepsBroken(ext: Externals, v: World, m: Message, end: End, ack: Call)
    ensures Broken(ext, Pipeline.Settled(v, m, end, ack), m.id) <==> Broken(ext, v, m.id)
  {
  }

  /** The exact condition, in terms of one attempt's calls: a fully indexed, `embedded`
      resume is broken by it if and only if they fail in this way. */
  lemma {:induction false} AttemptBreaksIff(w: World, ext: Externals, m: Message, calls: TaskCalls)
    requires Indexable(w, ext, m) && m in w.queue && w.db.resumes[m.id].embeddingStatus == Embedded
    requires FullyIndexed(ext, w, m.id, w.db.resumes[m.id])
    ensures Broken(ext, Delivered(w, ext, m, calls), m.id) <==> AttemptBreaks(calls)
  {
    var row := w.db.resumes[m.id];
    var (v, end) := EmbedRun(w, ext, m, calls);
    FullIsExact(ext, w, m.id, row);
    EmbedExactly(w, ext, m, calls);
    OwnFrame(w, ext, m, calls);
    var next := v.db.resumes[m.id];
    assert FilePoints(ext, v.objects, m.id, next) == FilePoints(ext, w.objects, m.id, row);
    FullIffPoints(ext, v, m.id, next);
    FullIffPoints(ext, w, m.id, row);
    IndexableWrites(w, ext, m, calls);
    if AttemptWrites(w, ext, m, calls) == NowEmpty {
      EmptyingEnd(w, ext, m, calls);
    }
    SettlingKeepsBroken(ext, v, m, end, calls.ack);
  }

  predicate AttemptsOn(w: World, e: Event, id: Uuid, org: Uuid) {
    e.Deliver? && e.message in w.queue && EmbedsResume(e.message, id, org)
  }

  lemma {:induction false} OthersNotNoted(h: History, w: World, ext: Externals, e: Event, id: Uuid)
    requires id in w.db.resumes && !AttemptsOn(w, e, id, w.db.resumes[id].org)
    ensures Noted(h, w, ext, e, id) == h
  {
  }

  lemma {:induction false} FullFits(w: World, ext: Externals, id: Uuid)
    requires id in w.db.resumes && FullyIndexed(ext, w, id, w.db.resumes[id])
    ensures Fits(History(Some(NowFull), false), w, ext, id)
  {
    FullIsExact(ext, w, id, w.db.resumes[id]);
  }

  lemma {:induction false} NotBroken(h: History, w: World, u: World, ext: Externals, id: Uuid)
    requires ResumesOk(u, ext) && Fits(h, u, ext, id) && h.latest == Some(NowFull)
    requires SameFile(w, u, id) && CollectionName(w.db.resumes[id].org) in u.index
    ensures !Broken(ext, u, id)
  {
    if u.db.resumes[id].embeddingStatus == Embedded {
      FitMeans(h, u, ext, id);
    }
  }

  lemma {:induction false} OtherStepsDoNotBreak(w: World, ext: Externals, e: Event, id: Uuid)
    requires Healthy(w, ext) && FreshIds(w, e) && id in w.db.resumes && FullyIndexed(ext, w, id, w.db.resumes[id])
    requires !AttemptsOn(w, e, id, w.db.resumes[id].org) && CollectionName(w.db.resumes[id].org) in Step(w, ext, e).index
    ensures !Broken(ext, Step(w, ext, e), id)
  {
    var h := History(Some(NowFull), false);
    FullFits(w, ext, id);
    StepFits(h, w, ext, e, id);
    OthersNotNoted(h, w, ext, e, id);
    StepKeepsHealthy(w, ext, e);
    StepKeepsFile(w, ext, e, id);
    NotBroken(h, w, Step(w, ext, e), ext, id);
  }

  lemma {:induction false} ReachableIsIndexable(w: World, ext: Externals, m: Message)
    requires ResumesOk(w, ext) && m.id in w.db.resumes && EmbedsResume(m, m.id, w.db.resumes[m.id].org)
    requires w.db.resumes[m.id].embeddingStatus == Embedded && FullyIndexed(ext, w, m.id, w.db.resumes[m.id])
    requires !Chunkless(ext, w.objects, w.db.resumes[m.id].key)
    ensures Indexable(w, ext, m)
  {
    assert RowOk(ext, w.objects, m.id, w.db.resumes[m.id]);
  }

  /** The same for every event there is: only a delivery of an embed task for this resume
      whose calls fail in this way breaks a fully indexed, `embedded` resume. */
  lemma {:induction false} StepBreaksIff(w: World, ext: Externals, e: Event, id: Uuid)
    requires Healthy(w, ext) && FreshIds(w, e) && id in w.db.resumes && w.db.resumes[id].embeddingStatus == Embedded
    requires FullyIndexed(ext, w, id, w.db.resumes[id]) && !Chunkless(ext, w.objects, w.db.resumes[id].key)
    requires CollectionName(w.db.resumes[id].org) in Step(w, ext, e).index
    ensures Broken(ext, Step(w, ext, e), id) <==>
      AttemptsOn(w, e, id, w.db.resumes[id].org) && AttemptBreaks(e.calls)
  {
    if AttemptsOn(w, e, id, w.db.resumes[id].org) {
      ReachableIsIndexable(w, ext, e.message);
      AttemptBreaksIff(w, ext, e.message, e.calls);
    } else {
      OtherStepsDoNotBreak(w, ext, e, id);
    }
  }
}
