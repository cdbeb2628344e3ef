/** What the pipeline promises in every state it can reach from empty stores. */
module PipelineTheorems {
  import opened Basics
  import opened Encodings
  import opened Schema
  import opened SameOrganization
  import opened VectorStore
  import opened Externals
  import opened Embedding
  import opened Pipeline
  import opened PipelineFacts
  import opened PipelineVerdicts
  import opened PipelineInvariants

  /** No resume is ever stuck half way: the passing statuses are never committed, a parsed
      resume carries the extractor's value and no error, a failed one its error. */
  lemma {:induction false} NeverStuck(start: World, ext: Externals, es: seq<Event>, id: Uuid)
    requires Start(start) && FreshRun(start, ext, es) && id in Steps(start, ext, es).db.resumes
    ensures
      var w := Steps(start, ext, es);
      var row := w.db.resumes[id];
      var text := FileText(ext, w.objects, row.key);
      && row.status in {Uploaded, Parsed, ParseFailed}
      && row.embeddingStatus in {NotEmbedded, Embedded, EmbedFailed}
      && (row.status == Parsed ==> row.parseError == None && text.Some? && row.parsedData == Some(ext.extractor(text.value)))
      && (row.status == ParseFailed ==> row.parseError.Some?)
      && (row.embeddingStatus == EmbedFailed <==> row.embeddingError.Some?)
  {
    StartIsHealthy(start, ext);
    HealthyForever(start, ext, es);
    assert RowOk(ext, Steps(start, ext, es).objects, id, Steps(start, ext, es).db.resumes[id]);
  }

  lemma {:induction false} ResumePointsHaveRows(w: World, org: Uuid)
    requires CollectionsOk(w) && CollectionName(org) in w.index
    ensures
      var c := w.index[CollectionName(org)];
      forall k :: k in c && c[k].sourceType == RESUME ==>
        c[k].sourceId in w.db.resumes && w.db.resumes[c[k].sourceId].org == org
  {
    var c := w.index[CollectionName(org)];
    forall k | k in c && c[k].sourceType == RESUME
      ensures c[k].sourceId in w.db.resumes && w.db.resumes[c[k].sourceId].org == org
    {
      assert k in PointsOf(c, RESUME, c[k].sourceId);
    }
  }

  /** In every reachable state of collections that hold resumes and transcripts alike:
      filtering a search by organization is redundant, a source filter selects exactly that
      source's points, and every resume point belongs to a resume of the organization. */
  lemma {:induction false} SearchStaysHome(start: World, ext: Externals, es: seq<Event>, org: Uuid, sourceType: string,
                                           sourceId: Uuid)
    requires Start(start) && FreshRun(start, ext, es) && CollectionName(org) in Steps(start, ext, es).index
    ensures
      var w := Steps(start, ext, es);
      var c := w.index[CollectionName(org)];
      && Wanted(c, org, None, None) == c
      && Wanted(c, org, Some(sourceType), None) == (map k | k in c && c[k].sourceType == sourceType :: c[k])
      && Wanted(c, org, Some(sourceType), Some(sourceId)) == PointsOf(c, sourceType, sourceId)
      && (forall k :: k in c ==> c[k].org == org && Known(c[k].sourceType))
      && (forall k :: k in c && c[k].sourceType == RESUME ==>
            c[k].sourceId in w.db.resumes && w.db.resumes[c[k].sourceId].org == org)
  {
    StartIsHealthy(start, ext);
    HealthyForever(start, ext, es);
    var w := Steps(start, ext, es);
    OrganizationFilterIsRedundant(w.index[CollectionName(org)], org, sourceType, sourceId);
    ResumePointsHaveRows(w, org);
  }

  /** Rows agree with each other in every reachable state: organizations, owners, files,
      and the two uniqueness rules. */
  lemma {:induction false} SubmissionIntegrity(start: World, ext: Externals, es: seq<Event>, a: Uuid, b: Uuid)
    requires Start(start) && FreshRun(start, ext, es)
    requires a in Steps(start, ext, es).db.applications && b in Steps(start, ext, es).db.applications
    ensures
      var w := Steps(start, ext, es);
      var app := w.db.applications[a];
      && app.resume in w.db.resumes && app.candidate in w.db.candidates && app.requisition in w.db.requisitions
      && w.db.resumes[app.resume].candidate == app.candidate && w.db.resumes[app.resume].key in w.objects
      && app.org == w.db.resumes[app.resume].org == w.db.candidates[app.candidate].org
              == w.db.requisitions[app.requisition].org
      && (a != b ==> !BothActive(app, w.db.applications[b]))
      && UniqueEmails(w.db)
  {
    StartIsHealthy(start, ext);
    HealthyForever(start, ext, es);
    var w := Steps(start, ext, es);
    assert OwnResume(w.db.resumes[w.db.applications[a].resume], w.db.applications[a]);
    assert RowOk(ext, w.objects, w.db.applications[a].resume, w.db.resumes[w.db.applications[a].resume]);
  }

  /** At most one verdict per application and service; each is of its application's own
      resume and organization, carries a value of the scorer, and was narrated by the Judge
      from that very score. */
  lemma {:induction false} VerdictsAreSound(start: World, ext: Externals, es: seq<Event>, u: Uuid, v: Uuid)
    requires Start(start) && FreshRun(start, ext, es)
    requires u in Steps(start, ext, es).db.verdicts && v in Steps(start, ext, es).db.verdicts
    ensures
      var w := Steps(start, ext, es);
      var row, other := w.db.verdicts[u], w.db.verdicts[v];
      && (u != v ==> row.application != other.application || row.service != other.service)
      && row.application in w.db.applications
      && row.resume == Some(w.db.applications[row.application].resume)
      && row.org == w.db.applications[row.application].org
      && JudgedBy(ext, row) && Scored(row)
  {
    StartIsHealthy(start, ext);
    HealthyForever(start, ext, es);
    assert VerdictOk(Steps(start, ext, es).db, ext, Steps(start, ext, es).db.verdicts[u]);
  }

  // ----- files are written once -----

  /** The resume is still there, the same one, and its file has not changed. */
  ghost predicate SameFile(w: World, v: World, id: Uuid) {
    && id in w.db.resumes && id in v.db.resumes && SameIdentity(w.db.resumes[id], v.db.resumes[id])
    && w.db.resumes[id].key in w.objects && v.db.resumes[id].key in v.objects
    && v.objects[v.db.resumes[id].key] == w.objects[w.db.resumes[id].key]
  }

  lemma {:induction false} RewriteKeepsFile(w: World, v: World, id: Uuid, other: Uuid)
    requires OneRowRewritten(w.db, v.db, other) && v.objects == w.objects
    requires id in w.db.resumes && w.db.resumes[id].key in w.objects
    ensures SameFile(w, v, id)
  {
  }

  lemma {:induction false} TaskRewrites(w: World, ext: Externals, m: Message, calls: TaskCalls)
    ensures var v := TaskRun(w, ext, m, calls).0; v.objects == w.objects && v.db.resumes.Keys == w.db.resumes.Keys
    ensures OneRowRewritten(w.db, TaskRun(w, ext, m, calls).0.db, m.id)
      || TaskRun(w, ext, m, calls).0.db.resumes == w.db.resumes
  {
    var (v, end) := TaskRun(w, ext, m, calls);
    match m.kind
    case ParseResume =>
      ParseEffect(w, ext, m, calls);
      ParseRewrites(w, ext, m, calls, v, end);
      ParseFrame(w, ext, m, calls, v, end);
    case EmbedResume =>
      EmbedEffect(w, ext, m, calls);
      EmbedRewrites(w, ext, m, calls, v, end);
      EmbedFrame(w, ext, m, calls, v, end);
    case ResumeVerdict =>
      VerdictEffect(w, ext, m, calls);
  }

  lemma {:induction false} DeliveryKeepsFile(w: World, ext: Externals, m: Message, calls: TaskCalls, id: Uuid)
    requires id in w.db.resumes && w.db.resumes[id].key in w.objects
    ensures SameFile(w, Delivered(w, ext, m, calls), id)
  {
    if m in w.queue {
      TaskRewrites(w, ext, m, calls);
      var v := TaskRun(w, ext, m, calls).0;
      if v.db.resumes != w.db.resumes {
        RewriteKeepsFile(w, v, id, m.id);
      }
    }
  }

  lemma {:induction false} SubmitKeepsFile(w: World, ext: Externals, sub: Submission, calls: SubmitCalls, id: Uuid)
    requires id in w.db.resumes && RowOk(ext, w.objects, id, w.db.resumes[id]) && calls.resume !in w.db.resumes
    ensures SameFile(w, SubmitRun(w, sub, calls).0, id)
  {
    var (u, end) := SubmitRun(w, sub, calls);
    SubmitEffect(w, sub, calls);
    SubmitHasFrame(w, u, sub, calls, end);
    SubmitAddsOneResume(w, u, sub, calls);
    UploadDisturbsNoFile(ext, w.objects, id, w.db.resumes[id], sub, calls);
  }

  lemma {:induction false} StepKeepsFile(w: World, ext: Externals, e: Event, id: Uuid)
    requires Healthy(w, ext) && FreshIds(w, e) && id in w.db.resumes
    ensures SameFile(w, Step(w, ext, e), id)
  {
    assert RowOk(ext, w.objects, id, w.db.resumes[id]);
    match e
    case Submit(sub, calls) => SubmitKeepsFile(w, ext, sub, calls, id);
    case Publish(m) =>
    case Deliver(m, calls) => DeliveryKeepsFile(w, ext, m, calls, id);
    case TearDown(org, exists_, delete) =>
    case IndexTranscript(_, _, _, _, _) =>
  }

  /** A committed resume keeps its file, its candidate and its organization forever. */
  lemma {:induction false} FilesAreKept(w: World, ext: Externals, es: seq<Event>, id: Uuid)
    requires Healthy(w, ext) && FreshRun(w, ext, es) && id in w.db.resumes
    ensures SameFile(w, Steps(w, ext, es), id)
    decreases |es|
  {
    assert RowOk(ext, w.objects, id, w.db.resumes[id]);
    if es != [] {
      StepKeepsHealthy(w, ext, es[0]);
      StepKeepsFile(w, ext, es[0], id);
      FilesAreKept(Step(w, ext, es[0]), ext, es[1..], id);
    }
  }

  /** The submitted bytes can be read back under the row's key in every later state. */
  lemma {:induction false} SubmittedBytesAreKept(w: World, ext: Externals, sub: Submission, calls: SubmitCalls,
                                                 es: seq<Event>)
    requires Healthy(w, ext) && FreshRun(w, ext, [Submit(sub, calls)] + es)
    requires SubmitRun(w, sub, calls).0.db != w.db
    ensures
      var v := Steps(w, ext, [Submit(sub, calls)] + es);
      && calls.resume in v.db.resumes && v.db.resumes[calls.resume].org == sub.org
      && v.db.resumes[calls.resume].key in v.objects && v.objects[v.db.resumes[calls.resume].key] == sub.content
      && Suffix(v.db.resumes[calls.resume].key) == Suffix(sub.filename)
  {
    var e := Submit(sub, calls);
    var (u, end) := SubmitRun(w, sub, calls);
    assert ([e] + es)[0] == e && ([e] + es)[1..] == es;
    assert Step(w, ext, e) == u;
    StepKeepsHealthy(w, ext, e);
    SubmitEffect(w, sub, calls);
    SubmitHasFrame(w, u, sub, calls, end);
    var candidate := RowsEffect(w.db, sub, calls);
    assert u.db.resumes[calls.resume].key == KeyOf(sub, calls) && u.objects[KeyOf(sub, calls)] == sub.content;
    FilesAreKept(u, ext, es, calls.resume);
    SuffixOfObjectKey(sub.org, calls.resume, sub.filename);
  }

  // ----- failed submissions -----

  /** Everything up to and including the commit worked. */
  ghost predicate Committable(w: World, sub: Submission, calls: SubmitCalls) {
    calls.find == calls.upload == calls.commit == Works && SubmissionRows(w.db, sub, calls).Done?
  }

  lemma {:induction false} SubmissionChangesRows(db: Db, sub: Submission, calls: SubmitCalls)
    requires SubmissionRows(db, sub, calls).Done?
    ensures SubmissionRows(db, sub, calls).db != db
  {
    var candidate := RowsEffect(db, sub, calls);
    assert calls.application !in db.applications;
  }

  lemma {:induction false} RowsCommittedIff(w: World, sub: Submission, calls: SubmitCalls)
    ensures SubmitRun(w, sub, calls).0.db
         == if Committable(w, sub, calls) then SubmissionRows(w.db, sub, calls).db else w.db
  {
    var (found, candidate) := CandidateStored(w.db, sub, calls.candidate);
    if calls.find == Works && found.Done? {
      assert SubmissionRows(w.db, sub, calls) == SubmissionStored(found.db, sub, candidate, calls);
    }
  }

  lemma {:induction false} SubmitLeavesTheRest(w: World, sub: Submission, calls: SubmitCalls, v: World, end: End)
    requires SubmitCases(w, sub, calls, v, end)
    requires SubmissionRows(w.db, sub, calls).Done? ==> SubmissionRows(w.db, sub, calls).db != w.db
    ensures v.objects in {w.objects, w.objects[KeyOf(sub, calls) := sub.content]}
    ensures v.index == w.index && v.dropped == w.dropped && (v.db == w.db ==> v.queue == w.queue)
  {
  }

  /** A submission that fails leaves rows behind exactly when only the broker failed it:
      everything up to the commit had worked. Otherwise at most an object is left. */
  lemma {:induction false} FailedSubmissionLeavesRowsIff(w: World, sub: Submission, calls: SubmitCalls)
    requires SubmitRun(w, sub, calls).1 != Returned
    ensures
      var v := SubmitRun(w, sub, calls).0;
      && (v.db != w.db <==>
            calls.find == calls.upload == calls.commit == Works && SubmissionRows(w.db, sub, calls).Done?)
      && v.objects in {w.objects, w.objects[KeyOf(sub, calls) := sub.content]}
      && v.index == w.index && v.dropped == w.dropped
      && (v.db == w.db ==> v.queue == w.queue)
  {
    var (v, end) := SubmitRun(w, sub, calls);
    RowsCommittedIff(w, sub, calls);
    if SubmissionRows(w.db, sub, calls).Done? {
      SubmissionChangesRows(w.db, sub, calls);
    }
    SubmitEffect(w, sub, calls);
    SubmitLeavesTheRest(w, sub, calls, v, end);
  }
}
