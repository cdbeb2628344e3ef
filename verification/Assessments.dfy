/** Which applications a verdict task assesses, and what the verdict is: said of the rows it
    reads, the calls it makes and the services it asks, and of nothing else. */
module Assessments {
  import opened Basics
  import opened Encodings
  import opened ResumeFit
  import opened Schema
  import opened VectorStore
  import opened Externals
  import opened Pipeline
  import opened PipelineVerdicts

  // ----- the query -----

  /** The words with the separator between them, read off from the last one backwards. */
  predicate Joins(t: string, sep: string, ws: seq<string>)
    decreases |ws|
  {
    if |ws| == 0 then t == ""
    else if |ws| == 1 then t == ws[0]
    else
      var end := sep + ws[|ws| - 1];
      |end| <= |t| && t[|t| - |end|..] == end && Joins(t[..|t| - |end|], sep, ws[..|ws| - 1])
  }

  lemma {:induction false} JoinedLast(sep: string, ws: seq<string>)
    requires |ws| > 1
    ensures JoinWith(sep, ws) == JoinWith(sep, ws[..|ws| - 1]) + (sep + ws[|ws| - 1])
    decreases |ws|
  {
    if |ws| > 2 {
      var rest := ws[1..];
      JoinedLast(sep, rest);
      assert rest[..|rest| - 1] == ws[..|ws| - 1][1..];
    }
  }

  lemma {:induction false} JoinedJoins(sep: string, ws: seq<string>)
    ensures Joins(JoinWith(sep, ws), sep, ws)
    decreases |ws|
  {
    if |ws| > 1 {
      JoinedLast(sep, ws);
      JoinedJoins(sep, ws[..|ws| - 1]);
      var t, end := JoinWith(sep, ws), sep + ws[|ws| - 1];
      assert t[..|t| - |end|] == JoinWith(sep, ws[..|ws| - 1]);
    }
  }

  /** The title, and after it all skills, if there are any. */
  predicate IsQuery(query: string, title: string, skills: seq<string>) {
    if skills == [] then query == title
    else
      var start := title + ". Required skills: ";
      start <= query && Joins(query[|start|..], ", ", skills)
  }

  lemma {:induction false} QueryIs(title: string, score: Score)
    ensures IsQuery(QueryText(title, score), title, score.matched + score.missing)
  {
    JoinedJoins(", ", score.matched + score.missing);
  }

  // ----- the context -----

  /** Exactly the points that name this organization and this source. */
  ghost predicate OnlyFrom(part: Collection, all: Collection, org: Uuid, sourceType: string, sourceId: Uuid) {
    && (forall k :: k in part <==>
          k in all && all[k].org == org && all[k].sourceType == sourceType && all[k].sourceId == sourceId)
    && (forall k :: k in part ==> part[k] == all[k])
  }

  /** There is nothing to look for, or a collection to look in, which answers. */
  predicate CanRetrieve(ix: Index, org: Uuid, vectors: seq<Vector>, search: Call) {
    vectors == [] || (CollectionName(org) in ix && search == Works)
  }

  predicate TextsOf(points: seq<Point>, texts: seq<string>) {
    |texts| == |points| && forall i :: 0 <= i < |points| ==> texts[i] == points[i].chunkText
  }

  /** The texts of the source's own points, as ranked for the first vector. */
  ghost predicate Retrieved(ix: Index, ext: Externals, org: Uuid, sourceType: string, sourceId: Uuid,
                            vectors: seq<Vector>, context: seq<string>) {
    if vectors == [] then context == []
    else
      && CollectionName(org) in ix
      && exists part: Collection :: OnlyFrom(part, ix[CollectionName(org)], org, sourceType, sourceId)
           && TextsOf(ext.rank(vectors[0], part), context)
  }

  lemma {:induction false} ContextIs(ix: Index, ext: Externals, org: Uuid, sourceType: string, sourceId: Uuid,
                                     vectors: seq<Vector>, search: Call)
    ensures
      var (end, context) := Context(ix, ext, org, sourceType, sourceId, vectors, search);
      && (end == Returned <==> CanRetrieve(ix, org, vectors, search))
      && (end == Returned ==> Retrieved(ix, ext, org, sourceType, sourceId, vectors, context))
  {
    if vectors != [] && CollectionName(org) in ix {
      var part := Wanted(ix[CollectionName(org)], org, Some(sourceType), Some(sourceId));
      assert OnlyFrom(part, ix[CollectionName(org)], org, sourceType, sourceId);
      assert TextsOf(ext.rank(vectors[0], part), Texts(ext.rank(vectors[0], part)));
    }
  }

  // ----- generate_resume_verdict -----

  /** The organization has this application with its resume and requisition, and the resume
      has been parsed to something. */
  predicate Assessable(db: Db, org: Uuid, id: Uuid) {
    && id in db.applications && db.applications[id].org == org
    && var app := db.applications[id];
       && app.resume in db.resumes && db.resumes[app.resume].org == org
       && app.requisition in db.requisitions && db.requisitions[app.requisition].org == org
       && db.resumes[app.resume].parsedData.Some? && db.resumes[app.resume].parsedData.value.hasKeys
  }

  /** The fit of the application's resume for the skills its requisition lists. */
  function Fit(db: Db, org: Uuid, id: Uuid): Score
    requires Assessable(db, org, id)
  {
    var app := db.applications[id];
    var skills := db.requisitions[app.requisition].requiredSkills;
    ScoreResumeFit(db.resumes[app.resume].parsedData.value, if skills.Some? then skills.value else [])
  }

  function TitleOf(db: Db, org: Uuid, id: Uuid): string
    requires Assessable(db, org, id)
  {
    db.requisitions[db.applications[id].requisition].title
  }

  /** The title of the requisition, with every skill it requires. */
  predicate IsQueryFor(db: Db, org: Uuid, id: Uuid, query: string)
    requires Assessable(db, org, id)
  {
    IsQuery(query, TitleOf(db, org, id), Fit(db, org, id).matched + Fit(db, org, id).missing)
  }

  /** The score, and what the Judge makes of exactly that score, the context and the title. */
  predicate IsJudged(ext: Externals, org: Uuid, id: Uuid, resume: Uuid, fit: Score, title: string, context: seq<string>,
                     row: Verdict) {
    var judged :=
      ext.judge(ResumeScore(fit), context, "Assess this candidate's resume fit for the '" + title + "' requisition.");
    row == Verdict(org, id, ResumeAnalysis, Some(resume), None, ResumeScore(fit), judged.0, judged.1)
  }

  /** The verdict on an application: its own resume's fit, judged with the texts retrieved
      from that resume. */
  ghost predicate IsVerdict(w: World, ext: Externals, org: Uuid, id: Uuid, query: string, context: seq<string>,
                            row: Verdict)
    requires Assessable(w.db, org, id)
  {
    var resume := w.db.applications[id].resume;
    && Retrieved(w.index, ext, org, "resume", resume, ext.embed([query]), context)
    && IsJudged(ext, org, id, resume, Fit(w.db, org, id), TitleOf(w.db, org, id), context, row)
  }

  /** All of its calls before the commit work. */
  predicate Answered(w: World, ext: Externals, org: Uuid, query: string, calls: TaskCalls) {
    && calls.index.embed == Works && calls.judge == Works
    && CanRetrieve(w.index, org, ext.embed([query]), calls.search)
  }

  lemma {:induction false} AssessedIff(w: World, ext: Externals, m: Message, resume: Uuid, data: ParsedData,
                                       requisition: Requisition, calls: TaskCalls, query: string)
    requires query == QueryText(requisition.title, ScoreResumeFit(data, Requirements(requisition)))
    ensures
      var (end, row) := Assessed(w, ext, m, resume, data, requisition, calls);
      && (end == Returned <==> row.Some?) && (row.Some? <==> Answered(w, ext, m.org, query, calls))
  {
    ContextIs(w.index, ext, m.org, "resume", resume, ext.embed([query]), calls.search);
  }

  lemma {:induction false} AssessedRow(w: World, ext: Externals, m: Message, resume: Uuid, data: ParsedData,
                                       requisition: Requisition, calls: TaskCalls, query: string)
      returns (context: seq<string>)
    requires query == QueryText(requisition.title, ScoreResumeFit(data, Requirements(requisition)))
    requires Assessed(w, ext, m, resume, data, requisition, calls).1.Some?
    ensures Retrieved(w.index, ext, m.org, "resume", resume, ext.embed([query]), context)
    ensures IsJudged(ext, m.org, m.id, resume, ScoreResumeFit(data, Requirements(requisition)), requisition.title, context,
                     Assessed(w, ext, m, resume, data, requisition, calls).1.value)
  {
    var vectors := ext.embed([query]);
    context := Context(w.index, ext, m.org, "resume", resume, vectors, calls.search).1;
    ContextIs(w.index, ext, m.org, "resume", resume, vectors, calls.search);
  }

  lemma {:induction false} OnlyAssessable(w: World, ext: Externals, m: Message, calls: TaskCalls)
    requires calls.load != Works || !Assessable(w.db, m.org, m.id)
    ensures VerdictFor(w, ext, m, calls) == (Ask(calls.load), None)
  {
  }

  lemma {:induction false} EveryAssessable(w: World, ext: Externals, m: Message, calls: TaskCalls)
    requires calls.load == Works && Assessable(w.db, m.org, m.id)
    ensures
      var app := w.db.applications[m.id];
      VerdictFor(w, ext, m, calls)
      == Assessed(w, ext, m, app.resume, w.db.resumes[app.resume].parsedData.value, w.db.requisitions[app.requisition], calls)
  {
  }

  /** The query made of the title and the skills. */
  lemma {:induction false} QueryFor(db: Db, org: Uuid, id: Uuid) returns (query: string)
    requires Assessable(db, org, id)
    ensures query == QueryText(TitleOf(db, org, id), Fit(db, org, id)) && IsQueryFor(db, org, id, query)
  {
    query := QueryText(TitleOf(db, org, id), Fit(db, org, id));
    QueryIs(TitleOf(db, org, id), Fit(db, org, id));
  }

  lemma {:induction false} AssessableVerdict(w: World, ext: Externals, m: Message, calls: TaskCalls, query: string)
      returns (context: seq<string>)
    requires calls.load == Works && Assessable(w.db, m.org, m.id)
    requires query == QueryText(TitleOf(w.db, m.org, m.id), Fit(w.db, m.org, m.id))
    ensures
      var (end, row) := VerdictFor(w, ext, m, calls);
      && (end == Returned <==> row.Some?) && (row.Some? <==> Answered(w, ext, m.org, query, calls))
      && (row.Some? ==> IsVerdict(w, ext, m.org, m.id, query, context, row.value))
  {
    context := [];
    var app := w.db.applications[m.id];
    var data, requisition := w.db.resumes[app.resume].parsedData.value, w.db.requisitions[app.requisition];
    EveryAssessable(w, ext, m, calls);
    AssessedIff(w, ext, m, app.resume, data, requisition, calls, query);
    if Answered(w, ext, m.org, query, calls) {
      context := AssessedRow(w, ext, m, app.resume, data, requisition, calls, query);
    }
  }

  /** Exactly when a task has a verdict to store, and which one: the application is
      assessable, it can be loaded, and embedder, retrieval and Judge answer. A task with
      nothing to assess returns without one. */
  lemma {:induction false} VerdictIff(w: World, ext: Externals, m: Message, calls: TaskCalls)
      returns (query: string, context: seq<string>)
    ensures Assessable(w.db, m.org, m.id) ==> IsQueryFor(w.db, m.org, m.id, query)
    ensures
      var (end, row) := VerdictFor(w, ext, m, calls);
      && (row.Some? <==>
            calls.load == Works && Assessable(w.db, m.org, m.id) && Answered(w, ext, m.org, query, calls))
      && (row.Some? ==> end == Returned)
      && (end == Returned && row.None? <==> calls.load == Works && !Assessable(w.db, m.org, m.id))
    ensures
      var row := VerdictFor(w, ext, m, calls).1;
      row.Some? ==> IsVerdict(w, ext, m.org, m.id, query, context, row.value)
  {
    query, context := "", [];
    if calls.load != Works || !Assessable(w.db, m.org, m.id) {
      OnlyAssessable(w, ext, m, calls);
    }
    if Assessable(w.db, m.org, m.id) {
      query := QueryFor(w.db, m.org, m.id);
      if calls.load == Works {
        context := AssessableVerdict(w, ext, m, calls, query);
      }
    }
  }

  lemma {:induction false} UncommittedLeavesRows(w: World, org: Uuid, row: Verdict, calls: TaskCalls)
    requires calls.commit != Works
    ensures VerdictSaved(w, org, row, calls).0 == w && VerdictSaved(w, org, row, calls).1 != Returned
  {
  }

  /** What a whole run does, exactly. It returns if there is nothing to assess, or everything
      it asks answers and the commit works; in the second case the application has exactly
      this verdict after it, and all else is as before. Otherwise nothing changes. */
  lemma {:induction false} VerdictRunExactly(w: World, ext: Externals, m: Message, calls: TaskCalls)
      returns (query: string, context: seq<string>, v: Uuid)
    requires VerdictsOk(w.db, ext) && calls.newId !in w.db.verdicts
    ensures Assessable(w.db, m.org, m.id) ==> IsQueryFor(w.db, m.org, m.id, query)
    ensures
      var (after, end) := VerdictRun(w, ext, m, calls);
      var stores := && calls.load == Works && Assessable(w.db, m.org, m.id)
                    && Answered(w, ext, m.org, query, calls) && calls.commit == Works;
      && (end == Returned <==> stores || (calls.load == Works && !Assessable(w.db, m.org, m.id)))
      && (stores ==>
            && v in after.db.verdicts
            && after == w.(db := w.db.(verdicts := w.db.verdicts[v := after.db.verdicts[v]]))
            && IsVerdict(w, ext, m.org, m.id, query, context, after.db.verdicts[v]))
      && (!stores ==> after == w)
  {
    query, context := VerdictIff(w, ext, m, calls);
    v := VerdictIsStored(w, ext, m, calls);
    var row := VerdictFor(w, ext, m, calls).1;
    if row.Some? && calls.commit != Works {
      UncommittedLeavesRows(w, m.org, row.value, calls);
    }
  }
}
