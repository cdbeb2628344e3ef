/** Which interviews a verdict task reviews, and what the verdict is: said of the rows it
    reads, the calls it makes and the services it asks, and of nothing else. */
module TranscriptReviews {
  import opened Basics
  import opened Text
  import opened Encodings
  import opened Schema
  import opened VectorStore
  import opened Externals
  import Pipeline
  import PipelineVerdicts
  import Transcripts
  import opened Assessments
  import opened TranscriptVerdicts

  /** The organization has this interview, completed, with this transcript, which has a text. */
  predicate Reviewable(db: Db, rows: Transcripts.Rows, org: Uuid, id: Uuid, t: Uuid) {
    && id in db.interviews && db.interviews[id].org == org && db.interviews[id].status == Completed
    && t in rows && rows[t].org == org && rows[t].interview == id && rows[t].text.Some? && rows[t].text.value != ""
  }

  /** The first two thousand characters. */
  predicate IsOpening(query: string, text: string) {
    query <= text && |query| == if |text| < 2000 then |text| else 2000
  }

  /** The embedder, retrieval and the Judge answer. */
  predicate ReviewAnswered(ix: Index, ext: Externals, org: Uuid, query: string, calls: Pipeline.TaskCalls) {
    && calls.index.embed == Works && calls.judge == Works && CanRetrieve(ix, org, ext.embed([query]), calls.search)
  }

  /** The length in words, whether that is two hundred or more, and what the Judge makes of
      exactly that score and the texts retrieved from this transcript. */
  ghost predicate IsReview(ix: Index, ext: Externals, org: Uuid, id: Uuid, application: Uuid, t: Uuid, text: string,
                           query: string, context: seq<string>, row: Verdict) {
    var score := TranscriptScore(|Split(text)|, |Split(text)| >= 200);
    var judged := ext.judge(score, context, "Review this interview transcript and produce a hiring verdict.");
    && Retrieved(ix, ext, org, "transcript", t, ext.embed([query]), context)
    && row == Verdict(org, application, TranscriptReview, None, Some(id), score, judged.0, judged.1)
  }

  /** The words of a text written as words are counted, whatever they are. */
  lemma {:induction false} ScoreCountsWords(ws: seq<string>)
    requires AllWords(ws)
    ensures ScoreTranscript(Join(ws)) == TranscriptScore(|ws|, |ws| >= 200)
  {
    SplitJoin(ws);
  }

  lemma {:induction false} ReviewedExactly(ix: Index, ext: Externals, org: Uuid, id: Uuid, interview: Interview,
                                           t: Uuid,
                                           text: string, calls: Pipeline.TaskCalls, query: string)
      returns (context: seq<string>)
    requires query == QueryOf(text)
    ensures IsOpening(query, text)
    ensures
      var (end, row) := Reviewed(ix, ext, org, id, interview, t, text, calls);
      && (end == Returned <==> row.Some?) && (row.Some? <==> ReviewAnswered(ix, ext, org, query, calls))
      && (row.Some? ==> IsReview(ix, ext, org, id, interview.application, t, text, query, context, row.value))
  {
    var vectors := ext.embed([query]);
    context := Pipeline.Context(ix, ext, org, "transcript", t, vectors, calls.search).1;
    ContextIs(ix, ext, org, "transcript", t, vectors, calls.search);
  }

  /** The session finds the interview's one transcript of its organization. */
  lemma {:induction false} FindsTranscript(rows: Transcripts.Rows, org: Uuid, interview: Uuid, t: Uuid)
    requires Transcripts.UniqueInterviews(rows)
    ensures TranscriptOf(rows, org, interview) == Some(t)
       <==> t in rows && rows[t].org == org && rows[t].interview == interview
  {
    var found := Transcripts.OfInterview(rows, org, interview);
    assert t in found <==> t in rows && rows[t].org == org && rows[t].interview == interview;
    if found != {} {
      assert Transcripts.TheOne(found) in found;
    }
  }

  /** The transcript the session finds, if it finds one. */
  lemma {:induction false} TheTranscript(db: Db, rows: Transcripts.Rows, org: Uuid, id: Uuid) returns (t: Uuid)
    requires Transcripts.UniqueInterviews(rows)
    ensures Reviewable(db, rows, org, id, t) || forall u :: !Reviewable(db, rows, org, id, u)
  {
    var found := TranscriptOf(rows, org, id);
    t := if found.Some? then found.value else id;
    forall u | Reviewable(db, rows, org, id, u)
      ensures u == t
    {
      FindsTranscript(rows, org, id, u);
    }
  }

  /** Only a reviewable interview is reviewed. */
  lemma {:induction false} ReviewsReviewable(db: Db, rows: Transcripts.Rows, ix: Index, ext: Externals, org: Uuid,
                                             id: Uuid,
                                             calls: Pipeline.TaskCalls, t: Uuid)
    requires Transcripts.UniqueInterviews(rows)
    requires Reviewable(db, rows, org, id, t) || forall u :: !Reviewable(db, rows, org, id, u)
    ensures calls.load != Works || !Reviewable(db, rows, org, id, t) ==>
      ReviewFor(db, rows, ix, ext, org, id, calls) == (Ask(calls.load), None)
    ensures calls.load == Works && Reviewable(db, rows, org, id, t) ==>
      ReviewFor(db, rows, ix, ext, org, id, calls)
      == Reviewed(ix, ext, org, id, db.interviews[id], t, rows[t].text.value, calls)
  {
    FindsTranscript(rows, org, id, t);
    var found := TranscriptOf(rows, org, id);
    if found.Some? {
      FindsTranscript(rows, org, id, found.value);
      assert Reviewable(db, rows, org, id, found.value) ==> Reviewable(db, rows, org, id, t);
    }
  }

  /** Exactly when a task has a verdict to store, and which one: the interview is completed,
      its transcript has a text, and embedder, retrieval and Judge answer. A task with
      nothing to review returns without one. */
  lemma {:induction false} ReviewIff(db: Db, rows: Transcripts.Rows, ix: Index, ext: Externals, org: Uuid, id: Uuid,
                                     calls: Pipeline.TaskCalls) returns (t: Uuid, query: string, context: seq<string>)
    requires Transcripts.UniqueInterviews(rows)
    ensures Reviewable(db, rows, org, id, t) || forall u :: !Reviewable(db, rows, org, id, u)
    ensures Reviewable(db, rows, org, id, t) ==> IsOpening(query, rows[t].text.value)
    ensures
      var (end, row) := ReviewFor(db, rows, ix, ext, org, id, calls);
      && (row.Some? <==>
            calls.load == Works && Reviewable(db, rows, org, id, t) && ReviewAnswered(ix, ext, org, query, calls))
      && (row.Some? ==> end == Returned)
      && (end == Returned && row.None? <==> calls.load == Works && !Reviewable(db, rows, org, id, t))
    ensures
      var row := ReviewFor(db, rows, ix, ext, org, id, calls).1;
      row.Some? ==>
        IsReview(ix, ext, org, id, db.interviews[id].application, t, rows[t].text.value, query, context, row.value)
  {
    t := TheTranscript(db, rows, org, id);
    query, context := "", [];
    ReviewsReviewable(db, rows, ix, ext, org, id, calls, t);
    if Reviewable(db, rows, org, id, t) {
      query := QueryOf(rows[t].text.value);
      context := ReviewedExactly(ix, ext, org, id, db.interviews[id], t, rows[t].text.value, calls, query);
    }
  }

  /** What a review does to the rows, exactly: if it has a verdict, which nothing blocks, and
      the commit works, that verdict is stored and all else is as before; otherwise nothing
      changes. */
  lemma {:induction false} ReviewRunExactly(db: Db, rows: Transcripts.Rows, ix: Index, ext: Externals, org: Uuid,
                                            id: Uuid,
                                            calls: Pipeline.TaskCalls)
      returns (t: Uuid, query: string, context: seq<string>, v: Uuid, row: Verdict)
    requires Transcripts.UniqueInterviews(rows) && PipelineVerdicts.OnePerService(db)
    ensures Reviewable(db, rows, org, id, t) || forall u :: !Reviewable(db, rows, org, id, u)
    ensures Reviewable(db, rows, org, id, t) ==>
      && IsOpening(query, rows[t].text.value)
      && row.application == db.interviews[id].application && row.service == TranscriptReview
    ensures
      var after := Step(db, ext, TranscriptTask(rows, ix, org, id, calls));
      if calls.load == Works && Reviewable(db, rows, org, id, t) && ReviewAnswered(ix, ext, org, query, calls)
         && !Blocked(db, org, calls.newId, row) && calls.commit == Works
      then
        && after == db.(verdicts := db.verdicts[v := row]) && !VerdictTaken(db, v, row)
        && IsReview(ix, ext, org, id, db.interviews[id].application, t, rows[t].text.value, query, context, row)
      else after == db
  {
    t, query, context := ReviewIff(db, rows, ix, ext, org, id, calls);
    var application := if Reviewable(db, rows, org, id, t) then db.interviews[id].application else id;
    v, row := calls.newId, Verdict(org, application, TranscriptReview, None, Some(id), TranscriptScore(0, false), Review, "");
    var wish := ReviewFor(db, rows, ix, ext, org, id, calls).1;
    if wish.Some? {
      row := wish.value;
      v := Slot(db, org, calls.newId, row);
      TriggerNeverFires(db, ext, TranscriptTask(rows, ix, org, id, calls));
      StoredUnlessBlocked(db, org, calls.newId, row);
    }
  }
}
