/** What holds in every state the resume pipeline can reach: rows, files, collections and
    queue agree, through failures, crashes, retries, duplicates and teardown. */
module PipelineInvariants {
  import opened Basics
  import opened Encodings
  import opened Chunking
  import opened Schema
  import opened SameOrganization
  import opened VectorStore
  import opened Externals
  import opened Embedding
  import opened Pipeline
  import opened PipelineFacts
  import opened PipelineVerdicts

  // ----- one resume -----

  /** The file has a text, and the embedder one vector for each of its chunks. */
  ghost predicate Embeddable(ext: Externals, objects: map<string, Bytes>, key: string) {
    var text := FileText(ext, objects, key);
    text.Some? && |Vectors(ext, Chunks(text.value))| == |Chunks(text.value)|
  }

  /** The committed row of a resume: its file is there under its own key, it is never
      stuck half way, and each status comes with the data or error that belongs to it. */
  ghost predicate RowOk(ext: Externals, objects: map<string, Bytes>, id: Uuid, row: Resume) {
    && KeyPrefix(row.org, id) <= row.key && row.key in objects
    && row.status != Parsing && row.embeddingStatus != Embedding
    && (row.status == Uploaded ==> row.parsedData.None? && row.parseError.None?)
    && (row.status == ParseFailed ==> row.parseError.Some?)
    && (row.status == Parsed ==>
          row.parseError.None? && FileText(ext, objects, row.key).Some?
          && row.parsedData == Some(ext.extractor(FileText(ext, objects, row.key).value)))
    && (row.embeddingStatus == EmbedFailed <==> row.embeddingError.Some?)
    && (row.embeddingStatus == Embedded ==> Embeddable(ext, objects, row.key))
  }

  /** The points the file of a resume should be indexed by. */
  function FilePoints(ext: Externals, objects: map<string, Bytes>, id: Uuid, row: Resume): seq<Point> {
    match FileText(ext, objects, row.key)
    case Some(text) => SourcePoints(ext, row.org, RESUME, id, row.candidate, text)
    case None => []
  }

  /** The index of a resume is all or nothing. */
  ghost predicate IndexedOk(ext: Externals, w: World, id: Uuid, row: Resume) {
    CollectionName(row.org) in w.index ==>
      PointsOf(w.index[CollectionName(row.org)], RESUME, id) in {map[], PointMap(FilePoints(ext, w.objects, id, row))}
  }

  ghost predicate ResumesOk(w: World, ext: Externals) {
    forall id :: id in w.db.resumes ==>
      RowOk(ext, w.objects, id, w.db.resumes[id]) && IndexedOk(ext, w, id, w.db.resumes[id])
  }

  // ----- collections -----

  /** A collection holds points of its own organization only, of resumes and transcripts;
      those of resumes have their row. */
  ghost predicate CollectionsOk(w: World) {
    forall org :: CollectionName(org) in w.index ==>
      && OwnPoints(w.index[CollectionName(org)], org)
      && forall id :: !(id in w.db.resumes && w.db.resumes[id].org == org) ==>
           PointsOf(w.index[CollectionName(org)], RESUME, id) == map[]
  }

  // ----- applications -----

  predicate OwnResume(resume: Resume, row: Application) {
    resume.candidate == row.candidate && resume.org == row.org
  }

  ghost predicate OwnResumes(db: Db) {
    forall a :: a in db.applications ==>
      db.applications[a].resume in db.resumes && OwnResume(db.resumes[db.applications[a].resume], db.applications[a])
  }

  /** An application's resume is its candidate's, and everything is of one organization. */
  ghost predicate ApplicationsOk(db: Db) {
    Sound(db) && OwnResumes(db)
  }

  ghost predicate Healthy(w: World, ext: Externals) {
    ResumesOk(w, ext) && CollectionsOk(w) && ApplicationsOk(w.db) && VerdictsOk(w.db, ext)
  }

  /** Where every run starts: any requisitions and interviews, any empty collections. */
  ghost predicate Start(w: World) {
    && w.db.candidates == map[] && w.db.resumes == map[] && w.db.applications == map[] && w.db.verdicts == map[]
    && (forall n :: n in w.index ==> w.index[n] == map[])
    && w.objects == map[] && w.queue == multiset{} && w.dropped == multiset{}
  }

  lemma StartIsHealthy(w: World, ext: Externals)
    requires Start(w)
    ensures Healthy(w, ext)
  {
  }

  // ----- deliveries -----

  /** Replacing a resume row by one of the same identity. */
  predicate SameIdentity(a: Resume, b: Resume) {
    a.org == b.org && a.candidate == b.candidate && a.key == b.key
  }

  lemma {:induction false} ApplicationsSurviveRow(db: Db, id: Uuid, row: Resume)
    requires ApplicationsOk(db) && id in db.resumes && SameIdentity(db.resumes[id], row)
    ensures ApplicationsOk(db.(resumes := db.resumes[id := row]))
  {
  }

  lemma {:induction false} VerdictsSurviveRow(db: Db, ext: Externals, id: Uuid, row: Resume)
    requires VerdictsOk(db, ext)
    ensures VerdictsOk(db.(resumes := db.resumes[id := row]), ext)
  {
    VerdictsDependOnApplications(db, db.(resumes := db.resumes[id := row]), ext);
  }

  lemma {:induction false} IndexedTransfers(ext: Externals, w: World, u: World, id: Uuid, row: Resume, next: Resume)
    requires IndexedOk(ext, w, id, row) && SameIdentity(row, next)
    requires u.index == w.index && u.objects == w.objects
    ensures IndexedOk(ext, u, id, next)
  {
  }

  lemma {:induction false} ParsedRows(ext: Externals, objects: map<string, Bytes>, id: Uuid, row: Resume, error: string)
    requires RowOk(ext, objects, id, row)
    ensures RowOk(ext, objects, id, FailedParse(row, error))
    ensures FileText(ext, objects, row.key).Some? ==>
      RowOk(ext, objects, id, GoodParse(row, ext.extractor(FileText(ext, objects, row.key).value)))
  {
  }

  lemma {:induction false} ParseFrame(w: World, ext: Externals, m: Message, calls: TaskCalls, v: World, end: End)
    requires ParseCases(w, ext, m, calls, v, end)
    ensures v.index == w.index && v.objects == w.objects && w.queue <= v.queue && v.dropped == w.dropped
    ensures v.db.resumes.Keys == w.db.resumes.Keys
    ensures forall id :: id in w.db.resumes && (id != m.id || w.db.resumes[id].org != m.org) ==>
      v.db.resumes[id] == w.db.resumes[id]
  {
  }

  /** What a parse run can leave of the resume it is about. */
  ghost predicate ParseRowCases(ext: Externals, objects: map<string, Bytes>, row: Resume, next: Resume, error: string) {
    || next == row || next == FailedParse(row, error)
    || (FileText(ext, objects, row.key).Some? && next == GoodParse(row, ext.extractor(FileText(ext, objects, row.key).value)))
  }

  lemma {:induction false} ParseOwnRow(w: World, ext: Externals, m: Message, calls: TaskCalls, v: World, end: End)
    requires ParseCases(w, ext, m, calls, v, end)
    requires m.id in w.db.resumes && w.db.resumes[m.id].org == m.org && m.id in v.db.resumes
    ensures ParseRowCases(ext, w.objects, w.db.resumes[m.id], v.db.resumes[m.id], calls.error)
  {
  }

  lemma {:induction false} ParseRowStaysOk(ext: Externals, objects: map<string, Bytes>, id: Uuid, row: Resume,
                                           next: Resume, error: string)
    requires RowOk(ext, objects, id, row) && ParseRowCases(ext, objects, row, next, error)
    ensures RowOk(ext, objects, id, next) && SameIdentity(row, next) && row.embeddingStatus == next.embeddingStatus
  {
    ParsedRows(ext, objects, id, row, error);
  }

  /** A parse delivery keeps the resumes in order. */
  lemma {:induction false} ParseKeepsResumes(w: World, ext: Externals, m: Message, calls: TaskCalls, v: World, end: End)
    requires ResumesOk(w, ext) && m in w.queue && m.kind == ParseResume
    requires ParseCases(w, ext, m, calls, v, end)
    ensures ResumesOk(Pipeline.Settled(v, m, end, calls.ack), ext)
  {
    var u := Pipeline.Settled(v, m, end, calls.ack);
    ParseFrame(w, ext, m, calls, v, end);
    forall id | id in u.db.resumes
      ensures RowOk(ext, u.objects, id, u.db.resumes[id]) && IndexedOk(ext, u, id, u.db.resumes[id])
    {
      assert id in w.db.resumes;
      var row := w.db.resumes[id];
      if id == m.id && row.org == m.org {
        ParseOwnRow(w, ext, m, calls, v, end);
        ParseRowStaysOk(ext, w.objects, id, row, u.db.resumes[id], calls.error);
      }
      IndexedTransfers(ext, w, u, id, row, u.db.resumes[id]);
    }
  }

  // ----- embed deliveries -----

  /** The row an embed run leaves for the resume it is about. */
  lemma {:induction false} EmbedRows(ext: Externals, objects: map<string, Bytes>, id: Uuid, row: Resume, error: string)
    requires RowOk(ext, objects, id, row)
    ensures RowOk(ext, objects, id, FailedEmbed(row, error))
    ensures Embeddable(ext, objects, row.key) ==> RowOk(ext, objects, id, GoodEmbed(row))
  {
  }

  /** What an embed run does to the collection, for the resume it is about. */
  lemma {:induction false} EmbedIndexOwn(w: World, ext: Externals, m: Message, row: Resume, calls: TaskCalls,
                                         ix: Index, completed: bool)
    requires IndexCases(w, ext, m, row, calls, ix, completed)
    requires row.org == m.org && IndexedOk(ext, w, m.id, row)
    ensures OnlyIn(w.index, ix, m.org)
    ensures
      var points, full := PointsOf(CollectionOf(ix, m.org), RESUME, m.id), PointMap(FilePoints(ext, w.objects, m.id, row));
      && (CollectionName(m.org) in ix ==> points == map[] || points == full)
      && (completed ==> points == full && Embeddable(ext, w.objects, row.key))
  {
    if FileText(ext, w.objects, row.key).Some? {
      EmbeddingOutcome(w.index, ext, m.org, RESUME, m.id, row.candidate, FileText(ext, w.objects, row.key).value, calls.index);
    }
  }

  /** And for every other resume of the organization, and for other sources. */
  lemma {:induction false} EmbedIndexOthers(w: World, ext: Externals, m: Message, row: Resume, calls: TaskCalls,
                                            ix: Index,
                                            completed: bool, id: Uuid)
    requires IndexCases(w, ext, m, row, calls, ix, completed) && id != m.id
    requires WellKeyed(PointsOf(CollectionOf(w.index, m.org), RESUME, id))
    ensures PointsOf(CollectionOf(ix, m.org), RESUME, id) == PointsOf(CollectionOf(w.index, m.org), RESUME, id)
  {
    if FileText(ext, w.objects, row.key).Some? {
      EmbeddingLeavesOthers(w.index, ext, m.org, RESUME, m.id, row.candidate, FileText(ext, w.objects, row.key).value,
                            calls.index, RESUME, id);
    }
  }

  lemma {:induction false} IndexedIsKeyed(ext: Externals, w: World, id: Uuid, row: Resume)
    requires IndexedOk(ext, w, id, row)
    ensures WellKeyed(PointsOf(CollectionOf(w.index, row.org), RESUME, id))
  {
    PointMapKeyed(FilePoints(ext, w.objects, id, row));
  }

  /** The resume an embed delivery is about stays in order. */
  lemma {:induction false} EmbedKeepsOwn(w: World, ext: Externals, m: Message, row: Resume, calls: TaskCalls, ix: Index,
                                         completed: bool, next: Resume, u: World)
    requires IndexCases(w, ext, m, row, calls, ix, completed)
    requires row.org == m.org && RowOk(ext, w.objects, m.id, row) && IndexedOk(ext, w, m.id, row)
    requires u.index == ix && u.objects == w.objects
    requires
      || next == row
      || (next == FailedEmbed(row, calls.error) && !completed)
      || (next == GoodEmbed(row) && completed)
    ensures RowOk(ext, u.objects, m.id, next) && IndexedOk(ext, u, m.id, next)
  {
    EmbedIndexOwn(w, ext, m, row, calls, ix, completed);
    EmbedRows(ext, w.objects, m.id, row, calls.error);
    assert FilePoints(ext, u.objects, m.id, next) == FilePoints(ext, w.objects, m.id, row);
  }

  lemma {:induction false} EmbedIndexFrame(w: World, ext: Externals, m: Message, row: Resume, calls: TaskCalls,
                                           ix: Index, completed: bool)
    requires IndexCases(w, ext, m, row, calls, ix, completed)
    ensures OnlyIn(w.index, ix, m.org)
  {
    if FileText(ext, w.objects, row.key).Some? {
      EmbeddingOutcome(w.index, ext, m.org, RESUME, m.id, row.candidate, FileText(ext, w.objects, row.key).value, calls.index);
    }
  }

  /** Any other resume stays in order too. */
  lemma {:induction false} EmbedKeepsOther(w: World, ext: Externals, m: Message, row: Resume, calls: TaskCalls,
                                           ix: Index,
                                           completed: bool, id: Uuid, other: Resume, u: World)
    requires IndexCases(w, ext, m, row, calls, ix, completed)
    requires id != m.id || other.org != m.org
    requires IndexedOk(ext, w, id, other) && u.index == ix && u.objects == w.objects
    ensures IndexedOk(ext, u, id, other)
  {
    EmbedIndexFrame(w, ext, m, row, calls, ix, completed);
    CollectionNameInjective(other.org, m.org);
    if other.org == m.org {
      IndexedIsKeyed(ext, w, id, other);
      EmbedIndexOthers(w, ext, m, row, calls, ix, completed, id);
    }
  }

  lemma {:induction false} EmbedFrame(w: World, ext: Externals, m: Message, calls: TaskCalls, v: World, end: End)
    requires EmbedCases(w, ext, m, calls, v, end)
    ensures v.queue == w.queue && v.dropped == w.dropped && v.objects == w.objects
    ensures v.db.resumes.Keys == w.db.resumes.Keys
    ensures forall id :: id in w.db.resumes && (id != m.id || w.db.resumes[id].org != m.org) ==>
      v.db.resumes[id] == w.db.resumes[id]
  {
  }

  lemma {:induction false} EmbedCasesKeepOther(w: World, ext: Externals, m: Message, calls: TaskCalls, v: World,
                                               end: End,
                                               id: Uuid, row: Resume, u: World)
    requires EmbedCases(w, ext, m, calls, v, end) && (id != m.id || row.org != m.org)
    requires IndexedOk(ext, w, id, row) && u.index == v.index && u.objects == w.objects
    ensures IndexedOk(ext, u, id, row)
  {
    var visible := VisibleResume(w.db, m.org, m.id);
    if visible.None? {
      IndexedTransfers(ext, w, u, id, row, row);
    } else {
      var completed: bool :| EmbedCase(w, ext, m, visible.value, calls, v, end, completed);
      EmbedKeepsOther(w, ext, m, visible.value, calls, v.index, completed, id, row, u);
    }
  }

  lemma {:induction false} EmbedKeepsResume(w: World, ext: Externals, m: Message, calls: TaskCalls, v: World, end: End,
                                            id: Uuid, u: World)
    requires EmbedCases(w, ext, m, calls, v, end) && id in w.db.resumes && id in v.db.resumes
    requires RowOk(ext, w.objects, id, w.db.resumes[id]) && IndexedOk(ext, w, id, w.db.resumes[id])
    requires u.index == v.index && u.objects == w.objects && u.db == v.db
    ensures RowOk(ext, u.objects, id, v.db.resumes[id]) && IndexedOk(ext, u, id, v.db.resumes[id])
  {
    var row := w.db.resumes[id];
    if id != m.id || row.org != m.org {
      EmbedFrame(w, ext, m, calls, v, end);
      EmbedCasesKeepOther(w, ext, m, calls, v, end, id, row, u);
    } else {
      var completed: bool :| EmbedCase(w, ext, m, row, calls, v, end, completed);
      EmbedKeepsOwn(w, ext, m, row, calls, v.index, completed, v.db.resumes[id], u);
    }
  }

  /** An embed delivery keeps the resumes in order. */
  lemma {:induction false} EmbedKeepsResumes(w: World, ext: Externals, m: Message, calls: TaskCalls, v: World, end: End)
    requires ResumesOk(w, ext) && m in w.queue && m.kind == EmbedResume
    requires EmbedCases(w, ext, m, calls, v, end)
    ensures ResumesOk(Pipeline.Settled(v, m, end, calls.ack), ext)
  {
    var u := Pipeline.Settled(v, m, end, calls.ack);
    EmbedFrame(w, ext, m, calls, v, end);
    forall id | id in u.db.resumes
      ensures RowOk(ext, u.objects, id, u.db.resumes[id]) && IndexedOk(ext, u, id, u.db.resumes[id])
    {
      EmbedKeepsResume(w, ext, m, calls, v, end, id, u);
    }
  }

  // ----- collections -----

  lemma {:induction false} EmbedKeepsCollection(w: World, ext: Externals, m: Message, row: Resume, calls: TaskCalls,
                                                ix: Index,
                                                completed: bool, org: Uuid)
    requires CollectionsOk(w) && IndexCases(w, ext, m, row, calls, ix, completed)
    requires m.id in w.db.resumes && w.db.resumes[m.id].org == m.org
    requires CollectionName(org) in ix
    ensures OwnPoints(ix[CollectionName(org)], org)
    ensures forall id :: !(id in w.db.resumes && w.db.resumes[id].org == org) ==>
      PointsOf(ix[CollectionName(org)], RESUME, id) == map[]
  {
    EmbedIndexFrame(w, ext, m, row, calls, ix, completed);
    CollectionNameInjective(org, m.org);
    if org == m.org {
      if FileText(ext, w.objects, row.key).Some? {
        EmbeddingKeepsOwn(w.index, ext, m.org, RESUME, m.id, row.candidate, FileText(ext, w.objects, row.key).value,
                          calls.index);
      }
      forall id | !(id in w.db.resumes && w.db.resumes[id].org == org)
        ensures PointsOf(ix[CollectionName(org)], RESUME, id) == map[]
      {
        EmbedIndexOthers(w, ext, m, row, calls, ix, completed, id);
      }
    }
  }

  lemma {:induction false} EmbedKeepsCollections(w: World, ext: Externals, m: Message, calls: TaskCalls, v: World,
                                                 end: End)
    requires CollectionsOk(w) && EmbedCases(w, ext, m, calls, v, end)
    ensures CollectionsOk(v)
  {
    var visible := VisibleResume(w.db, m.org, m.id);
    if visible.Some? {
      var completed: bool :| EmbedCase(w, ext, m, visible.value, calls, v, end, completed);
      forall org | CollectionName(org) in v.index
        ensures OwnPoints(v.index[CollectionName(org)], org)
          && forall id :: !(id in v.db.resumes && v.db.resumes[id].org == org) ==>
               PointsOf(v.index[CollectionName(org)], RESUME, id) == map[]
      {
        EmbedKeepsCollection(w, ext, m, visible.value, calls, v.index, completed, org);
        assert forall id :: id in v.db.resumes <==> id in w.db.resumes;
        assert forall id :: id in w.db.resumes ==> v.db.resumes[id].org == w.db.resumes[id].org;
      }
    }
  }

  // ----- whole deliveries -----

  /** A run that rewrites at most one resume row, keeping its identity. */
  ghost predicate OneRowRewritten(before: Db, after: Db, id: Uuid) {
    after == before
    || (&& id in before.resumes && id in after.resumes && SameIdentity(before.resumes[id], after.resumes[id])
        && after == before.(resumes := before.resumes[id := after.resumes[id]]))
  }

  lemma {:induction false} RewriteKeepsRows(before: Db, after: Db, ext: Externals, id: Uuid)
    requires ApplicationsOk(before) && VerdictsOk(before, ext) && OneRowRewritten(before, after, id)
    ensures ApplicationsOk(after) && VerdictsOk(after, ext)
  {
    if after != before {
      ApplicationsSurviveRow(before, id, after.resumes[id]);
      VerdictsSurviveRow(before, ext, id, after.resumes[id]);
    }
  }

  lemma {:induction false} ParseRewrites(w: World, ext: Externals, m: Message, calls: TaskCalls, v: World, end: End)
    requires ParseCases(w, ext, m, calls, v, end)
    ensures OneRowRewritten(w.db, v.db, m.id) && v.index == w.index
  {
  }

  lemma {:induction false} EmbedRewrites(w: World, ext: Externals, m: Message, calls: TaskCalls, v: World, end: End)
    requires EmbedCases(w, ext, m, calls, v, end)
    ensures OneRowRewritten(w.db, v.db, m.id)
  {
  }

  /** Collections, applications and verdicts: all that does not concern a single resume. */
  ghost predicate RowsHealthy(w: World, ext: Externals) {
    CollectionsOk(w) && ApplicationsOk(w.db) && VerdictsOk(w.db, ext)
  }

  lemma {:induction false} RewriteKeepsRowsHealthy(w: World, v: World, ext: Externals, id: Uuid)
    requires RowsHealthy(w, ext) && OneRowRewritten(w.db, v.db, id)
    requires v.index == w.index || CollectionsOk(v)
    ensures RowsHealthy(v, ext)
  {
    RewriteKeepsRows(w.db, v.db, ext, id);
  }

  lemma {:induction false} VerdictKeepsRowsHealthy(w: World, v: World, ext: Externals)
    requires RowsHealthy(w, ext) && VerdictsOk(v.db, ext)
    requires v == w || v == w.(db := w.db.(verdicts := v.db.verdicts))
    ensures RowsHealthy(v, ext)
  {
  }

  lemma {:induction false} TaskKeepsRows(w: World, ext: Externals, m: Message, calls: TaskCalls)
    requires RowsHealthy(w, ext) && calls.newId !in w.db.verdicts
    ensures RowsHealthy(TaskRun(w, ext, m, calls).0, ext)
  {
    var (v, end) := TaskRun(w, ext, m, calls);
    match m.kind
    case ParseResume =>
      ParseEffect(w, ext, m, calls);
      ParseRewrites(w, ext, m, calls, v, end);
      RewriteKeepsRowsHealthy(w, v, ext, m.id);
    case EmbedResume =>
      EmbedEffect(w, ext, m, calls);
      EmbedRewrites(w, ext, m, calls, v, end);
      EmbedKeepsCollections(w, ext, m, calls, v, end);
      RewriteKeepsRowsHealthy(w, v, ext, m.id);
    case ResumeVerdict =>
      VerdictEffect(w, ext, m, calls);
      var id := VerdictIsStored(w, ext, m, calls);
      VerdictKeepsRowsHealthy(w, v, ext);
  }

  lemma {:induction false} VerdictKeepsResumes(w: World, v: World, ext: Externals, m: Message, end: End, ack: Call)
    requires ResumesOk(w, ext) && m in w.queue && m.kind == ResumeVerdict
    requires v == w || v == w.(db := w.db.(verdicts := v.db.verdicts))
    ensures ResumesOk(Pipeline.Settled(v, m, end, ack), ext)
  {
    var u := Pipeline.Settled(v, m, end, ack);
    forall id | id in u.db.resumes
      ensures RowOk(ext, u.objects, id, u.db.resumes[id]) && IndexedOk(ext, u, id, u.db.resumes[id])
    {
      var row := w.db.resumes[id];
      assert RowOk(ext, w.objects, id, row) && IndexedOk(ext, w, id, row);
      IndexedTransfers(ext, w, u, id, row, row);
    }
  }

  lemma {:induction false} TaskKeepsResumes(w: World, ext: Externals, m: Message, calls: TaskCalls)
    requires ResumesOk(w, ext) && m in w.queue
    ensures ResumesOk(Delivered(w, ext, m, calls), ext)
  {
    var (v, end) := TaskRun(w, ext, m, calls);
    match m.kind
    case ParseResume =>
      ParseEffect(w, ext, m, calls);
      ParseKeepsResumes(w, ext, m, calls, v, end);
    case EmbedResume =>
      EmbedEffect(w, ext, m, calls);
      EmbedKeepsResumes(w, ext, m, calls, v, end);
    case ResumeVerdict =>
      VerdictEffect(w, ext, m, calls);
      VerdictKeepsResumes(w, v, ext, m, end, calls.ack);
  }

  lemma {:induction false} DeliveryKeepsHealthy(w: World, ext: Externals, m: Message, calls: TaskCalls)
    requires Healthy(w, ext) && calls.newId !in w.db.verdicts
    ensures Healthy(Delivered(w, ext, m, calls), ext)
  {
    if m in w.queue {
      TaskKeepsRows(w, ext, m, calls);
      TaskKeepsResumes(w, ext, m, calls);
    }
  }

  // ----- submissions -----

  lemma {:induction false} CandidateKeepsSound(db: Db, sub: Submission, newId: Uuid)
    requires Sound(db) && CandidateStored(db, sub, newId).0.Done?
    ensures Sound(CandidateStored(db, sub, newId).0.db)
  {
    ExecuteKeepsSound(db, Some(sub.org), AddCandidate(newId, Candidate(sub.org, sub.email, sub.fullName, sub.phone)));
  }

  lemma {:induction false} ApplicationKeepsSound(db: Db, s: Setting, id: Uuid, row: Application)
    requires Sound(db) && InsertApplication(db, s, id, row).Done?
    ensures Sound(InsertApplication(db, s, id, row).db)
  {
    ExecuteKeepsSound(db, s, AddApplication(id, row));
  }

  lemma {:induction false} StoredKeepsSound(db: Db, sub: Submission, candidate: Uuid, calls: SubmitCalls)
    requires Sound(db) && SubmissionStored(db, sub, candidate, calls).Done?
    ensures Sound(SubmissionStored(db, sub, candidate, calls).db)
  {
    var s := Some(sub.org);
    var resume := NewResume(sub, candidate, KeyOf(sub, calls));
    var row := Application(sub.org, candidate, sub.requisition, calls.resume, Submitted);
    var mid := InsertResume(db, s, calls.resume, resume).db;
    assert Sound(mid) by {
      ExecuteKeepsSound(db, s, AddResume(calls.resume, resume));
    }
    assert SubmissionStored(db, sub, candidate, calls) == InsertApplication(mid, s, calls.application, row);
    ApplicationKeepsSound(mid, s, calls.application, row);
  }

  /** The rows of a submission are the outcome of up to three statements of its session. */
  lemma {:induction false} SubmissionKeepsSound(db: Db, sub: Submission, calls: SubmitCalls)
    requires Sound(db) && SubmissionRows(db, sub, calls).Done?
    ensures Sound(SubmissionRows(db, sub, calls).db)
  {
    var (found, candidate) := CandidateStored(db, sub, calls.candidate);
    CandidateKeepsSound(db, sub, calls.candidate);
    StoredKeepsSound(found.db, sub, candidate, calls);
  }

  lemma {:induction false} AddedRowsKeepOwners(db: Db, sub: Submission, calls: SubmitCalls, next: Db, candidate: Uuid)
    requires OwnResumes(db) && RowsCases(db, sub, calls, next, candidate)
    ensures OwnResumes(next)
  {
    var row := Application(sub.org, candidate, sub.requisition, calls.resume, Submitted);
    assert next.applications == db.applications[calls.application := row];
    assert OwnResume(next.resumes[calls.resume], row);
    assert next.resumes == db.resumes[calls.resume := next.resumes[calls.resume]];
  }

  lemma {:induction false} AddedRowsKeepVerdicts(db: Db, ext: Externals, sub: Submission, calls: SubmitCalls,
                                                 next: Db, candidate: Uuid)
    requires VerdictsOk(db, ext) && RowsCases(db, sub, calls, next, candidate)
    ensures VerdictsOk(next, ext)
  {
    VerdictsDependOnApplications(db, next, ext);
  }

  lemma {:induction false} SubmissionKeepsRows(db: Db, ext: Externals, sub: Submission, calls: SubmitCalls)
    requires ApplicationsOk(db) && VerdictsOk(db, ext) && SubmissionRows(db, sub, calls).Done?
    ensures ApplicationsOk(SubmissionRows(db, sub, calls).db) && VerdictsOk(SubmissionRows(db, sub, calls).db, ext)
  {
    SubmissionKeepsSound(db, sub, calls);
    var candidate := RowsEffect(db, sub, calls);
    AddedRowsKeepOwners(db, sub, calls, SubmissionRows(db, sub, calls).db, candidate);
    AddedRowsKeepVerdicts(db, ext, sub, calls, SubmissionRows(db, sub, calls).db, candidate);
  }

  /** A new object does not disturb the file of any resume there is. */
  lemma {:induction false} UploadDisturbsNoFile(ext: Externals, objects: map<string, Bytes>, id: Uuid, row: Resume,
                                                sub: Submission, calls: SubmitCalls)
    requires RowOk(ext, objects, id, row) && id != calls.resume
    ensures KeyOf(sub, calls) != row.key
    ensures RowOk(ext, objects[KeyOf(sub, calls) := sub.content], id, row)
    ensures FilePoints(ext, objects[KeyOf(sub, calls) := sub.content], id, row) == FilePoints(ext, objects, id, row)
  {
    var key := KeyOf(sub, calls);
    if key == row.key {
      KeyPrefixesDisjoint(row.org, id, sub.org, calls.resume, key);
    }
    assert FileText(ext, objects[key := sub.content], row.key) == FileText(ext, objects, row.key);
  }

  /** After an upload, and possibly new messages, the old resumes are in order. */
  lemma {:induction false} UploadKeepsResume(w: World, u: World, ext: Externals, sub: Submission, calls: SubmitCalls,
                                             id: Uuid)
    requires id in w.db.resumes && id != calls.resume
    requires RowOk(ext, w.objects, id, w.db.resumes[id]) && IndexedOk(ext, w, id, w.db.resumes[id])
    requires u.index == w.index && w.queue <= u.queue && w.dropped == u.dropped
    requires u.objects == w.objects || u.objects == w.objects[KeyOf(sub, calls) := sub.content]
    ensures RowOk(ext, u.objects, id, w.db.resumes[id]) && IndexedOk(ext, u, id, w.db.resumes[id])
  {
    UploadDisturbsNoFile(ext, w.objects, id, w.db.resumes[id], sub, calls);
  }

  /** Of a submission, the other stores see at most an upload and new messages. */
  ghost predicate SubmitFrame(w: World, u: World, sub: Submission, calls: SubmitCalls) {
    && u.index == w.index && w.queue <= u.queue && w.dropped == u.dropped
    && (u.objects == w.objects || u.objects == w.objects[KeyOf(sub, calls) := sub.content])
    && (u.db == w.db
        || (SubmissionRows(w.db, sub, calls).Done? && u.db == SubmissionRows(w.db, sub, calls).db
            && u.objects == w.objects[KeyOf(sub, calls) := sub.content]))
  }

  lemma {:induction false} SubmitHasFrame(w: World, u: World, sub: Submission, calls: SubmitCalls, end: End)
    requires SubmitCases(w, sub, calls, u, end)
    ensures SubmitFrame(w, u, sub, calls)
  {
  }

  /** The resumes of the rows after a submission: the old ones, and perhaps the new one. */
  ghost predicate OneResumeMore(w: World, u: World, id: Uuid) {
    && (forall r :: r in w.db.resumes ==> r in u.db.resumes && u.db.resumes[r] == w.db.resumes[r])
    && (forall r :: r in u.db.resumes ==> r in w.db.resumes || (r == id && u.db != w.db))
  }

  lemma {:induction false} SubmitAddsOneResume(w: World, u: World, sub: Submission, calls: SubmitCalls)
    requires SubmitFrame(w, u, sub, calls) && calls.resume !in w.db.resumes
    ensures OneResumeMore(w, u, calls.resume)
  {
    if u.db != w.db {
      var candidate := RowsEffect(w.db, sub, calls);
    }
  }

  lemma {:induction false} NewResumeOk(w: World, u: World, ext: Externals, sub: Submission, calls: SubmitCalls)
    requires CollectionsOk(w) && calls.resume !in w.db.resumes && SubmissionRows(w.db, sub, calls).Done?
    requires u.db == SubmissionRows(w.db, sub, calls).db && u.index == w.index
    requires u.objects == w.objects[KeyOf(sub, calls) := sub.content]
    ensures calls.resume in u.db.resumes
    ensures RowOk(ext, u.objects, calls.resume, u.db.resumes[calls.resume])
    ensures IndexedOk(ext, u, calls.resume, u.db.resumes[calls.resume])
  {
    var candidate := RowsEffect(w.db, sub, calls);
    assert KeyPrefix(sub.org, calls.resume) <= KeyOf(sub, calls);
  }

  lemma {:induction false} SubmitKeepsResumes(w: World, u: World, ext: Externals, sub: Submission, calls: SubmitCalls)
    requires ResumesOk(w, ext) && CollectionsOk(w) && calls.resume !in w.db.resumes
    requires SubmitFrame(w, u, sub, calls) && OneResumeMore(w, u, calls.resume)
    ensures ResumesOk(u, ext)
  {
    forall id | id in u.db.resumes
      ensures RowOk(ext, u.objects, id, u.db.resumes[id]) && IndexedOk(ext, u, id, u.db.resumes[id])
    {
      if id in w.db.resumes {
        UploadKeepsResume(w, u, ext, sub, calls, id);
      } else {
        NewResumeOk(w, u, ext, sub, calls);
      }
    }
  }

  lemma {:induction false} SubmitKeepsCollections(w: World, u: World, id: Uuid)
    requires CollectionsOk(w) && u.index == w.index && OneResumeMore(w, u, id)
    ensures CollectionsOk(u)
  {
  }

  lemma {:induction false} SubmitCasesKeepHealthy(w: World, u: World, ext: Externals, sub: Submission,
                                                  calls: SubmitCalls, end: End)
    requires Healthy(w, ext) && calls.resume !in w.db.resumes
    requires SubmitCases(w, sub, calls, u, end)
    ensures Healthy(u, ext)
  {
    SubmitHasFrame(w, u, sub, calls, end);
    SubmitAddsOneResume(w, u, sub, calls);
    SubmitKeepsResumes(w, u, ext, sub, calls);
    SubmitKeepsCollections(w, u, calls.resume);
    if u.db != w.db {
      SubmissionKeepsRows(w.db, ext, sub, calls);
    }
  }

  lemma {:induction false} SubmitKeepsHealthy(w: World, ext: Externals, sub: Submission, calls: SubmitCalls)
    requires Healthy(w, ext) && calls.resume !in w.db.resumes
    ensures Healthy(SubmitRun(w, sub, calls).0, ext)
  {
    var (u, end) := SubmitRun(w, sub, calls);
    SubmitEffect(w, sub, calls);
    SubmitCasesKeepHealthy(w, u, ext, sub, calls, end);
  }

  // ----- teardown -----

  lemma {:induction false} TearDownKeepsHealthy(w: World, ext: Externals, org: Uuid, exists_: Call, delete: Call)
    requires Healthy(w, ext)
    ensures Healthy(w.(index := TornDown(w.index, org, exists_, delete).0), ext)
  {
    var u := w.(index := TornDown(w.index, org, exists_, delete).0);
    forall id | id in u.db.resumes
      ensures RowOk(ext, u.objects, id, u.db.resumes[id]) && IndexedOk(ext, u, id, u.db.resumes[id])
    {
      assert RowOk(ext, w.objects, id, w.db.resumes[id]) && IndexedOk(ext, w, id, w.db.resumes[id]);
    }
  }

  // ----- transcripts in the same collections -----

  lemma {:induction false} TranscriptKeepsCollection(w: World, ext: Externals, org: Uuid, t: Uuid, candidate: Uuid,
                                                     text: string, calls: EmbedCalls, id: Uuid)
    requires WellKeyed(PointsOf(CollectionOf(w.index, org), RESUME, id))
    ensures
      var ix := SourceEmbedded(w.index, ext, org, TRANSCRIPT, t, candidate, text, calls).0;
      PointsOf(CollectionOf(ix, org), RESUME, id) == PointsOf(CollectionOf(w.index, org), RESUME, id)
  {
    EmbeddingLeavesOthers(w.index, ext, org, TRANSCRIPT, t, candidate, text, calls, RESUME, id);
  }

  lemma {:induction false} TranscriptKeepsResumes(w: World, ext: Externals, org: Uuid, t: Uuid, candidate: Uuid,
                                                  text: string, calls: EmbedCalls)
    requires ResumesOk(w, ext)
    ensures ResumesOk(w.(index := SourceEmbedded(w.index, ext, org, TRANSCRIPT, t, candidate, text, calls).0), ext)
  {
    var u := w.(index := SourceEmbedded(w.index, ext, org, TRANSCRIPT, t, candidate, text, calls).0);
    EmbeddingOutcome(w.index, ext, org, TRANSCRIPT, t, candidate, text, calls);
    forall id | id in u.db.resumes
      ensures RowOk(ext, u.objects, id, u.db.resumes[id]) && IndexedOk(ext, u, id, u.db.resumes[id])
    {
      var row := w.db.resumes[id];
      assert RowOk(ext, w.objects, id, row) && IndexedOk(ext, w, id, row);
      CollectionNameInjective(row.org, org);
      if row.org == org {
        IndexedIsKeyed(ext, w, id, row);
        TranscriptKeepsCollection(w, ext, org, t, candidate, text, calls, id);
      }
    }
  }

  lemma {:induction false} TranscriptKeepsCollections(w: World, ext: Externals, org: Uuid, t: Uuid, candidate: Uuid,
                                                      text: string, calls: EmbedCalls)
    requires CollectionsOk(w)
    ensures CollectionsOk(w.(index := SourceEmbedded(w.index, ext, org, TRANSCRIPT, t, candidate, text, calls).0))
  {
    var u := w.(index := SourceEmbedded(w.index, ext, org, TRANSCRIPT, t, candidate, text, calls).0);
    EmbeddingOutcome(w.index, ext, org, TRANSCRIPT, t, candidate, text, calls);
    EmbeddingKeepsOwn(w.index, ext, org, TRANSCRIPT, t, candidate, text, calls);
    forall o | CollectionName(o) in u.index
      ensures OwnPoints(u.index[CollectionName(o)], o)
        && forall id :: !(id in u.db.resumes && u.db.resumes[id].org == o) ==>
             PointsOf(u.index[CollectionName(o)], RESUME, id) == map[]
    {
      CollectionNameInjective(o, org);
      if o == org {
        forall id | !(id in w.db.resumes && w.db.resumes[id].org == o)
          ensures PointsOf(u.index[CollectionName(o)], RESUME, id) == map[]
        {
          TranscriptKeepsCollection(w, ext, org, t, candidate, text, calls, id);
        }
      }
    }
  }

  lemma {:induction false} PublishKeepsHealthy(w: World, ext: Externals, m: Message)
    requires Healthy(w, ext)
    ensures Healthy(w.(queue := w.queue + multiset{m}), ext)
  {
    var u := w.(queue := w.queue + multiset{m});
    forall id | id in u.db.resumes
      ensures RowOk(ext, u.objects, id, u.db.resumes[id]) && IndexedOk(ext, u, id, u.db.resumes[id])
    {
        IndexedTransfers(ext, w, u, id, w.db.resumes[id], w.db.resumes[id]);
    }
  }

  // ----- all runs -----

  /** Drawn ids are new: the resume id of a submission, the row id of a verdict. */
  ghost predicate FreshIds(w: World, e: Event) {
    match e
    case Submit(_, calls) => calls.resume !in w.db.resumes
    case Deliver(_, calls) => calls.newId !in w.db.verdicts
    case _ => true
  }

  ghost predicate FreshRun(w: World, ext: Externals, es: seq<Event>)
    decreases |es|
  {
    es == [] || (FreshIds(w, es[0]) && FreshRun(Step(w, ext, es[0]), ext, es[1..]))
  }

  lemma {:induction false} StepKeepsHealthy(w: World, ext: Externals, e: Event)
    requires Healthy(w, ext) && FreshIds(w, e)
    ensures Healthy(Step(w, ext, e), ext)
  {
    match e
    case Submit(sub, calls) => SubmitKeepsHealthy(w, ext, sub, calls);
    case Publish(m) => PublishKeepsHealthy(w, ext, m);
    case Deliver(m, calls) => DeliveryKeepsHealthy(w, ext, m, calls);
    case TearDown(org, exists_, delete) => TearDownKeepsHealthy(w, ext, org, exists_, delete);
    case IndexTranscript(org, t, candidate, text, calls) =>
      TranscriptKeepsResumes(w, ext, org, t, candidate, text, calls);
      TranscriptKeepsCollections(w, ext, org, t, candidate, text, calls);
  }

  /** Rows, files, collections, applications and verdicts are in order in every state that
      any run of the pipeline can reach. */
  lemma {:induction false} HealthyForever(w: World, ext: Externals, es: seq<Event>)
    requires Healthy(w, ext) && FreshRun(w, ext, es)
    ensures Healthy(Steps(w, ext, es), ext)
    decreases |es|
  {
    if es != [] {
      StepKeepsHealthy(w, ext, es[0]);
      HealthyForever(Step(w, ext, es[0]), ext, es[1..]);
    }
  }
}
