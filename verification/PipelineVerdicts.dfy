/** Resume verdicts: what `generate_resume_verdict` writes, and why nothing ever refuses it. */
module PipelineVerdicts {
  import opened Basics
  import opened Encodings
  import opened ResumeFit
  import opened Schema
  import opened Externals
  import opened Embedding
  import opened Pipeline

  /** The narrative is the Judge's answer to the score in the same row. */
  ghost predicate JudgedBy(ext: Externals, row: Verdict) {
    exists context: seq<string>, task: string :: ext.judge(row.score, context, task) == (row.verdictLabel, row.narrative)
  }

  /** The score is the scorer's value on some parsed data and requirements. */
  ghost predicate Scored(row: Verdict) {
    exists data: ParsedData, required: seq<Json> :: row.score == ResumeScore(ScoreResumeFit(data, required))
  }

  /** A verdict of an application of this organization, about that application's resume. */
  ghost predicate Belongs(db: Db, org: Uuid, row: Verdict) {
    && row.org == org && row.service == ResumeAnalysis && row.score.ResumeScore?
    && row.application in db.applications && db.applications[row.application].org == org
    && row.resume == Some(db.applications[row.application].resume) && row.interview == None
  }

  ghost predicate VerdictOk(db: Db, ext: Externals, row: Verdict) {
    Belongs(db, row.org, row) && JudgedBy(ext, row) && Scored(row)
  }

  ghost predicate OnePerService(db: Db) {
    forall u, v :: u in db.verdicts && v in db.verdicts && u != v ==>
      db.verdicts[u].application != db.verdicts[v].application || db.verdicts[u].service != db.verdicts[v].service
  }

  /** Every row in order, and at most one per application and service. */
  ghost predicate VerdictsOk(db: Db, ext: Externals) {
    (forall v :: v in db.verdicts ==> VerdictOk(db, ext, db.verdicts[v])) && OnePerService(db)
  }

  lemma {:induction false} VerdictDependsOnApplications(db: Db, next: Db, ext: Externals, row: Verdict)
    requires VerdictOk(db, ext, row)
    requires forall a :: a in db.applications ==> a in next.applications && next.applications[a] == db.applications[a]
    ensures VerdictOk(next, ext, row)
  {
  }

  lemma {:induction false} VerdictsDependOnApplications(db: Db, next: Db, ext: Externals)
    requires VerdictsOk(db, ext) && next.verdicts == db.verdicts
    requires forall a :: a in db.applications ==> a in next.applications && next.applications[a] == db.applications[a]
    ensures VerdictsOk(next, ext)
  {
    forall v | v in next.verdicts
      ensures VerdictOk(next, ext, next.verdicts[v])
    {
      VerdictDependsOnApplications(db, next, ext, db.verdicts[v]);
    }
  }

  // ----- what a run wants to write -----

  /** The score is the scorer's value on the data and requirements this run reads, the
      narrative the Judge's answer to that very score. */
  ghost predicate Assesses(db: Db, ext: Externals, m: Message, row: Verdict) {
    && row.application == m.id && Belongs(db, m.org, row) && JudgedBy(ext, row)
    && var app := db.applications[m.id];
       && VisibleResume(db, m.org, app.resume).Some? && VisibleRequisition(db, m.org, app.requisition).Some?
       && var data := db.resumes[app.resume].parsedData;
          && data.Some?
          && row.score.score == ScoreResumeFit(data.value, Requirements(db.requisitions[app.requisition]))
  }

  lemma {:induction false} AssessedFacts(w: World, ext: Externals, m: Message, resumeId: Uuid, data: ParsedData,
                                         requisition: Requisition, calls: TaskCalls)
    ensures
      var row := Assessed(w, ext, m, resumeId, data, requisition, calls).1;
      row.Some? ==>
        && row.value.org == m.org && row.value.application == m.id && row.value.service == ResumeAnalysis
        && row.value.resume == Some(resumeId) && row.value.interview == None
        && row.value.score == ResumeScore(ScoreResumeFit(data, Requirements(requisition)))
        && JudgedBy(ext, row.value)
  {
    var score := ScoreResumeFit(data, Requirements(requisition));
    var vectors := ext.embed([QueryText(requisition.title, score)]);
    var context := Context(w.index, ext, m.org, RESUME, resumeId, vectors, calls.search).1;
    var judged := ext.judge(ResumeScore(score), context, Task(requisition.title));
    assert judged == (judged.0, judged.1);
  }

  /** Every row a verdict task tries to store is an assessment of what the run read. */
  lemma {:induction false} VerdictForFacts(w: World, ext: Externals, m: Message, calls: TaskCalls)
    ensures var row := VerdictFor(w, ext, m, calls).1; row.Some? ==> Assesses(w.db, ext, m, row.value)
  {
    var app := VisibleApplication(w.db, m.org, m.id);
    if app.Some? {
      var resume, requisition := VisibleResume(w.db, m.org, app.value.resume),
                                 VisibleRequisition(w.db, m.org, app.value.requisition);
      if resume.Some? && requisition.Some? && resume.value.parsedData.Some? {
        AssessedFacts(w, ext, m, app.value.resume, resume.value.parsedData.value, requisition.value, calls);
      }
    }
  }

  lemma {:induction false} AssessmentsAreScored(db: Db, ext: Externals, m: Message, row: Verdict)
    requires Assesses(db, ext, m, row)
    ensures Scored(row)
  {
    var app := db.applications[m.id];
    assert row.score == ResumeScore(ScoreResumeFit(db.resumes[app.resume].parsedData.value,
                                                   Requirements(db.requisitions[app.requisition])));
  }

  // ----- storing it -----

  lemma {:induction false} SeesVerdict(db: Db, ext: Externals, v: Uuid)
    requires VerdictsOk(db, ext) && v in db.verdicts
    ensures
      var row := db.verdicts[v];
      && row.application in db.applications && db.applications[row.application].org == row.org
      && row.service == ResumeAnalysis
  {
    assert VerdictOk(db, ext, db.verdicts[v]);
  }

  lemma {:induction false} AtMostOne(db: Db, org: Uuid, application: Uuid, service: ServiceType)
    requires OnePerService(db)
    ensures |VerdictsFor(db, org, application, service)| <= 1
  {
    var s := VerdictsFor(db, org, application, service);
    if s != {} {
      var v :| v in s;
      assert s == {v};
    }
  }

  /** The session sees every verdict of its own application, and there is at most one. */
  lemma {:induction false} SeesAllVerdicts(db: Db, ext: Externals, org: Uuid, application: Uuid)
    requires VerdictsOk(db, ext)
    requires application in db.applications && db.applications[application].org == org
    ensures |VerdictsFor(db, org, application, ResumeAnalysis)| <= 1
    ensures forall v :: v in db.verdicts && db.verdicts[v].application == application ==>
      v in VerdictsFor(db, org, application, ResumeAnalysis)
  {
    AtMostOne(db, org, application, ResumeAnalysis);
    forall v | v in db.verdicts && db.verdicts[v].application == application
      ensures v in VerdictsFor(db, org, application, ResumeAnalysis)
    {
      SeesVerdict(db, ext, v);
    }
  }

  lemma {:induction false} OnlyElement(s: set<Uuid>)
    requires |s| <= 1 && s != {}
    ensures |s| == 1 && s == {The(s)}
  {
    assert |s - {The(s)}| == 0;
  }

  /** The trigger, the policies and the uniqueness constraint never refuse a verdict
      task's write: the one row for its application is overwritten, or a new one added. */
  lemma {:induction false} VerdictNeverRefused(db: Db, ext: Externals, org: Uuid, newId: Uuid,
                                               row: Verdict) returns (v: Uuid)
    requires VerdictsOk(db, ext) && newId !in db.verdicts && Belongs(db, org, row)
    ensures VerdictConsistent(db, Some(org), row)
    ensures VerdictStored(db, org, newId, row) == Done(db.(verdicts := db.verdicts[v := row]))
    ensures VerdictsFor(db, org, row.application, ResumeAnalysis) <= {v}
    ensures var existing := VerdictsFor(db, org, row.application, ResumeAnalysis);
      if existing == {} then v == newId else |existing| == 1 && v == The(existing)
  {
    var existing := VerdictsFor(db, org, row.application, ResumeAnalysis);
    SeesAllVerdicts(db, ext, org, row.application);
    if existing == {} {
      v := newId;
    } else {
      OnlyElement(existing);
      v := The(existing);
      assert row.(org := db.verdicts[v].org) == row;
    }
    forall u | u in db.verdicts && u != v
      ensures db.verdicts[u].application != row.application
    {
    }
    assert !VerdictTaken(db, v, row);
  }

  lemma {:induction false} PutKeepsOnePerService(db: Db, ext: Externals, org: Uuid, v: Uuid, row: Verdict)
    requires VerdictsOk(db, ext) && Belongs(db, org, row)
    requires VerdictsFor(db, org, row.application, ResumeAnalysis) <= {v}
    ensures OnePerService(db.(verdicts := db.verdicts[v := row]))
  {
    SeesAllVerdicts(db, ext, org, row.application);
  }

  lemma {:induction false} PutVerdict(db: Db, ext: Externals, org: Uuid, v: Uuid, row: Verdict)
    requires VerdictsOk(db, ext) && Belongs(db, org, row) && JudgedBy(ext, row) && Scored(row)
    requires VerdictsFor(db, org, row.application, ResumeAnalysis) <= {v}
    ensures VerdictsOk(db.(verdicts := db.verdicts[v := row]), ext)
  {
    var next := db.(verdicts := db.verdicts[v := row]);
    PutKeepsOnePerService(db, ext, org, v, row);
    assert VerdictOk(db, ext, row);
    forall u | u in next.verdicts
      ensures VerdictOk(next, ext, next.verdicts[u])
    {
      VerdictDependsOnApplications(db, next, ext, next.verdicts[u]);
    }
  }

  /** A verdict task that gets through to its commit leaves exactly its own assessment as
      the verdict of that application, and every other verdict as it was. */
  lemma {:induction false} VerdictIsStored(w: World, ext: Externals, m: Message, calls: TaskCalls) returns (v: Uuid)
    requires VerdictsOk(w.db, ext) && calls.newId !in w.db.verdicts
    ensures VerdictsOk(VerdictRun(w, ext, m, calls).0.db, ext)
    ensures
      var row := VerdictFor(w, ext, m, calls).1;
      row.Some? && calls.commit == Works ==>
        VerdictRun(w, ext, m, calls) == (w.(db := w.db.(verdicts := w.db.verdicts[v := row.value])), Returned)
  {
    v := calls.newId;
    VerdictForFacts(w, ext, m, calls);
    var row := VerdictFor(w, ext, m, calls).1;
    if row.Some? {
      v := VerdictNeverRefused(w.db, ext, m.org, calls.newId, row.value);
      AssessmentsAreScored(w.db, ext, m, row.value);
      PutVerdict(w.db, ext, m.org, v, row.value);
    }
  }
}
