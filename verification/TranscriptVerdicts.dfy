/** Verdicts on interview transcripts, and what holds of all verdicts when both kinds of
    verdict task run, in any order, over rows that others change in between. */
module TranscriptVerdicts {
  import opened Basics
  import opened Text
  import opened Encodings
  import opened Schema
  import opened VectorStore
  import opened Externals
  import opened Embedding
  import Pipeline
  import PipelineVerdicts
  import Transcripts
  import Worker

  const MIN_WORD_COUNT := 200
  const QUERY_LIMIT := 2000
  const REVIEW := "Review this interview transcript and produce a hiring verdict."

  /** `score_transcript` under the default rubric. */
  function ScoreTranscript(text: string): VerdictScore {
    TranscriptScore(|Split(text)|, |Split(text)| >= MIN_WORD_COUNT)
  }

  function VisibleInterview(db: Db, org: Uuid, id: Uuid): Option<Interview> {
    if id in db.interviews && Allows(Some(org), db.interviews[id].org) then Some(db.interviews[id]) else None
  }

  /** The transcript of an interview, if the session sees one. */
  function TranscriptOf(rows: Transcripts.Rows, org: Uuid, interview: Uuid): Option<Uuid>
    requires Transcripts.UniqueInterviews(rows)
  {
    var found := Transcripts.OfInterview(rows, org, interview);
    if found == {} then None else Some(Transcripts.TheOne(found))
  }

  function QueryOf(text: string): string {
    if |text| <= QUERY_LIMIT then text else text[..QUERY_LIMIT]
  }

  /** Score, retrieve, judge: the verdict row to store, unless a call raises. */
  function Reviewed(ix: Index, ext: Externals, org: Uuid, id: Uuid, interview: Interview, transcript: Uuid,
                    text: string,
                    calls: Pipeline.TaskCalls): (End, Option<Verdict>) {
    var score := ScoreTranscript(text);
    if Ask(calls.index.embed) != Returned then (Ask(calls.index.embed), None) else
    var (end, context) :=
      Pipeline.Context(ix, ext, org, TRANSCRIPT, transcript, ext.embed([QueryOf(text)]), calls.search);
    if end != Returned then (end, None)
    else if Ask(calls.judge) != Returned then (Ask(calls.judge), None)
    else
      var judged := ext.judge(score, context, REVIEW);
      (Returned, Some(Verdict(org, interview.application, TranscriptReview, None, Some(id), score, judged.0, judged.1)))
  }

  /** Only a completed interview with a text is reviewed. */
  function ReviewFor(db: Db, rows: Transcripts.Rows, ix: Index, ext: Externals, org: Uuid, id: Uuid,
                     calls: Pipeline.TaskCalls):
    (End, Option<Verdict>)
    requires Transcripts.UniqueInterviews(rows)
  {
    if Ask(calls.load) != Returned then (Ask(calls.load), None)
    else match VisibleInterview(db, org, id)
      case None => (Returned, None)
      case Some(interview) =>
        var transcript := TranscriptOf(rows, org, id);
        if interview.status != Completed || transcript.None? || !Transcripts.HasText(rows[transcript.value]) then (Returned, None)
        else Reviewed(ix, ext, org, id, interview, transcript.value, rows[transcript.value].text.value, calls)
  }

  class TranscriptWorker {
    const worker: Worker.Worker
    var transcripts: Transcripts.Rows

    constructor (worker: Worker.Worker, transcripts: Transcripts.Rows)
      ensures this.worker == worker && this.transcripts == transcripts
    {
      this.worker, this.transcripts := worker, transcripts;
    }

    method Review(org: Uuid, id: Uuid, interview: Interview, transcript: Uuid, text: string, calls: Pipeline.TaskCalls)
      returns (end: End, row: Option<Verdict>)
      ensures (end, row) == Reviewed(worker.store.index, worker.ext, org, id, interview, transcript, text, calls)
    {
      var score := ScoreTranscript(text);
      if Ask(calls.index.embed) != Returned {
        return Ask(calls.index.embed), None;
      }
      var queryVectors := worker.ext.embed([QueryOf(text)]);
      var contextChunks;
      end, contextChunks := worker.RetrieveContext(org, TRANSCRIPT, transcript, queryVectors, calls.search);
      if end != Returned {
        return end, None;
      }
      if Ask(calls.judge) != Returned {
        return Ask(calls.judge), None;
      }
      var judged := worker.ext.judge(score, contextChunks, REVIEW);
      row := Some(Verdict(org, interview.application, TranscriptReview, None, Some(id), score, judged.0, judged.1));
    }

    method GenerateTranscriptVerdict(org: Uuid, id: Uuid, calls: Pipeline.TaskCalls) returns (end: End)
      requires Transcripts.UniqueInterviews(transcripts)
      modifies worker.database
      ensures
        var before := old(worker.database.committed);
        var (stop, row) := ReviewFor(before, transcripts, worker.store.index, worker.ext, org, id, calls);
        (worker.database.committed, end)
        == if row.None? then (before, stop) else Pipeline.VerdictUpserted(before, org, row.value, calls)
    {
      if Ask(calls.load) != Returned {
        return Ask(calls.load);
      }
      var session := worker.database.committed;
      var interview := VisibleInterview(session, org, id);
      if interview.None? {
        return Returned;
      }
      if interview.value.status != Completed {
        return Returned;
      }
      var transcript := TranscriptOf(transcripts, org, id);
      if transcript.None? || !Transcripts.HasText(transcripts[transcript.value]) {
        return Returned;
      }
      var row;
      end, row := Review(org, id, interview.value, transcript.value, transcripts[transcript.value].text.value, calls);
      if row.None? {
        return;
      }
      end := worker.UpsertVerdict(session, org, calls.newId, row.value, calls.commit);
    }
  }

  // ----- what a review wants to write -----

  /** The interview is completed when the row is written, the score is the scorer's value on
      the text this run reads, and the narrative the Judge's answer to that score. */
  ghost predicate Reviews(db: Db, rows: Transcripts.Rows, ext: Externals, org: Uuid, id: Uuid, row: Verdict) {
    && row.org == org && row.service == TranscriptReview && row.resume == None && row.interview == Some(id)
    && VisibleInterview(db, org, id).Some?
    && db.interviews[id].status == Completed && db.interviews[id].application == row.application
    && (exists t :: t in rows && rows[t].org == org && rows[t].interview == id && Transcripts.HasText(rows[t])
          && row.score == ScoreTranscript(rows[t].text.value))
    && PipelineVerdicts.JudgedBy(ext, row)
  }

  lemma {:induction false} ReviewFacts(db: Db, rows: Transcripts.Rows, ix: Index, ext: Externals, org: Uuid, id: Uuid,
                                       calls: Pipeline.TaskCalls)
    requires Transcripts.UniqueInterviews(rows)
    ensures var row := ReviewFor(db, rows, ix, ext, org, id, calls).1; row.Some? ==> Reviews(db, rows, ext, org, id, row.value)
  {
    var row := ReviewFor(db, rows, ix, ext, org, id, calls).1;
    if row.Some? {
      var t := TranscriptOf(rows, org, id).value;
      assert t in Transcripts.OfInterview(rows, org, id);
      var text := rows[t].text.value;
      var context := Pipeline.Context(ix, ext, org, TRANSCRIPT, t, ext.embed([QueryOf(text)]), calls.search).1;
      assert ext.judge(row.value.score, context, REVIEW) == (row.value.verdictLabel, row.value.narrative);
    }
  }

  // ----- both kinds of task -----

  /** A row of the right shape, with the Judge's answer to the score it carries. */
  ghost predicate ShapeOk(ext: Externals, row: Verdict) {
    && PipelineVerdicts.JudgedBy(ext, row)
    && match row.service
       case ResumeAnalysis => row.resume.Some? && row.interview.None? && PipelineVerdicts.Scored(row)
       case TranscriptReview =>
         row.resume.None? && row.interview.Some? && exists text :: row.score == ScoreTranscript(text)
  }

  ghost predicate VerdictsOk(db: Db, ext: Externals) {
    PipelineVerdicts.OnePerService(db) && forall v :: v in db.verdicts ==> ShapeOk(ext, db.verdicts[v])
  }

  /** A task of either kind, or any change that leaves the verdict rows alone. */
  datatype Event =
    | ResumeTask(w: Pipeline.World, m: Pipeline.Message, resumeCalls: Pipeline.TaskCalls)
    | TranscriptTask(rows: Transcripts.Rows, index: Index, org: Uuid, id: Uuid, reviewCalls: Pipeline.TaskCalls)
    | Others(candidates: map<Uuid, Candidate>, requisitions: map<Uuid, Requisition>, resumes: map<Uuid, Resume>,
             applications: map<Uuid, Application>, interviews: map<Uuid, Interview>)

  /** `transcripts.interview_id` is unique. */
  predicate UniqueTranscripts(rows: Transcripts.Rows)
    ensures UniqueTranscripts(rows) <==> Transcripts.UniqueInterviews(rows)
  {
    forall a, b :: a in rows && b in rows && a != b ==> rows[a].interview != rows[b].interview
  }

  /** The row an event wants to store, in whose session; a resume task runs over these rows. */
  function Wish(db: Db, ext: Externals, e: Event): Option<(Uuid, Verdict, Pipeline.TaskCalls)> {
    match e
    case ResumeTask(w, m, calls) =>
      (match Pipeline.VerdictFor(w.(db := db), ext, m, calls).1
       case None => None
       case Some(row) => Some((m.org, row, calls)))
    case TranscriptTask(rows, ix, org, id, calls) =>
      if !UniqueTranscripts(rows) then None else
      (match ReviewFor(db, rows, ix, ext, org, id, calls).1
       case None => None
       case Some(row) => Some((org, row, calls)))
    case Others(_, _, _, _, _) => None
  }

  function Step(db: Db, ext: Externals, e: Event): Db {
    match e
    case Others(candidates, requisitions, resumes, applications, interviews) =>
      Db(candidates, requisitions, resumes, applications, interviews, db.verdicts)
    case _ =>
      match Wish(db, ext, e)
      case None => db
      case Some(wish) => Pipeline.VerdictUpserted(db, wish.0, wish.1, wish.2).0
  }

  function Run(db: Db, ext: Externals, es: seq<Event>): Db
    decreases |es|
  {
    if es == [] then db else Run(Step(db, ext, es[0]), ext, es[1..])
  }

  /** What a wish says of the rows its task has read. */
  lemma {:induction false} WishesAreAssessments(db: Db, ext: Externals, e: Event)
    requires Wish(db, ext, e).Some?
    ensures
      var row := Wish(db, ext, e).value.1;
      match e
      case ResumeTask(w, m, calls) => PipelineVerdicts.Assesses(db, ext, m, row)
      case TranscriptTask(rows, ix, org, id, calls) => Reviews(db, rows, ext, org, id, row)
      case Others(_, _, _, _, _) => false
  {
    match e
    case ResumeTask(w, m, calls) => PipelineVerdicts.VerdictForFacts(w.(db := db), ext, m, calls);
    case TranscriptTask(rows, ix, org, id, calls) => ReviewFacts(db, rows, ix, ext, org, id, calls);
  }

  lemma {:induction false} ResumeWish(db: Db, w: Pipeline.World, ext: Externals, m: Pipeline.Message,
                                      calls: Pipeline.TaskCalls)
    ensures
      var row := Pipeline.VerdictFor(w.(db := db), ext, m, calls).1;
      row.Some? ==>
        && VerdictConsistent(db, Some(m.org), row.value) && row.value.org == m.org && ShapeOk(ext, row.value)
        && row.value.service == ResumeAnalysis
  {
    PipelineVerdicts.VerdictForFacts(w.(db := db), ext, m, calls);
    var row := Pipeline.VerdictFor(w.(db := db), ext, m, calls).1;
    if row.Some? {
      PipelineVerdicts.AssessmentsAreScored(db, ext, m, row.value);
    }
  }

  /** Whatever a verdict task wants to store passes the consistency trigger, in any state. */
  lemma {:induction false} TriggerNeverFires(db: Db, ext: Externals, e: Event)
    requires Wish(db, ext, e).Some?
    ensures
      var (org, row, calls) := Wish(db, ext, e).value;
      && VerdictConsistent(db, Some(org), row) && row.org == org && ShapeOk(ext, row)
      && (row.service == TranscriptReview ==>
            row.interview.value in db.interviews && db.interviews[row.interview.value].status == Completed)
  {
    match e
    case ResumeTask(w, m, calls) => ResumeWish(db, w, ext, m, calls);
    case TranscriptTask(rows, ix, org, id, calls) => ReviewFacts(db, rows, ix, ext, org, id, calls);
  }

  /** The verdict of this application and service belongs to a session of another
      organization, or the row refers to no application, or the drawn id is taken. */
  ghost predicate Blocked(db: Db, org: Uuid, newId: Uuid, row: Verdict) {
    || row.application !in db.applications
    || (exists v :: v in db.verdicts && db.verdicts[v].org != org
          && db.verdicts[v].application == row.application && db.verdicts[v].service == row.service)
    || (newId in db.verdicts && Pipeline.VerdictsFor(db, org, row.application, row.service) == {})
  }

  /** Exactly when a verdict cannot be stored; the trigger is never the reason. Otherwise the
      one row for its application and service is overwritten, or a new one added. */
  lemma {:induction false} StoredUnlessBlocked(db: Db, org: Uuid, newId: Uuid, row: Verdict)
    requires PipelineVerdicts.OnePerService(db) && VerdictConsistent(db, Some(org), row) && row.org == org
    ensures Pipeline.VerdictStored(db, org, newId, row).Refused? <==> Blocked(db, org, newId, row)
    ensures Pipeline.VerdictStored(db, org, newId, row).Done? ==>
      var existing := Pipeline.VerdictsFor(db, org, row.application, row.service);
      var v := if |existing| == 1 then Pipeline.The(existing) else newId;
      Pipeline.VerdictStored(db, org, newId, row) == Done(db.(verdicts := db.verdicts[v := row]))
      && !VerdictTaken(db, v, row)
  {
    var existing := Pipeline.VerdictsFor(db, org, row.application, row.service);
    PipelineVerdicts.AtMostOne(db, org, row.application, row.service);
    if |existing| == 1 {
      var v := Pipeline.The(existing);
      assert row.(org := db.verdicts[v].org) == row;
      assert forall u :: u in db.verdicts && u != v ==>
        db.verdicts[u].application != row.application || db.verdicts[u].service != row.service;
    } else {
      assert existing == {};
      forall u | u in db.verdicts && db.verdicts[u].org == org
        ensures db.verdicts[u].application != row.application || db.verdicts[u].service != row.service
      {
        assert u !in existing;
      }
    }
  }

  lemma {:induction false} PutKeepsOnePerService(db: Db, v: Uuid, row: Verdict)
    requires PipelineVerdicts.OnePerService(db) && !VerdictTaken(db, v, row)
    ensures PipelineVerdicts.OnePerService(db.(verdicts := db.verdicts[v := row]))
  {
  }

  lemma {:induction false} PutKeepsOk(db: Db, ext: Externals, v: Uuid, row: Verdict)
    requires VerdictsOk(db, ext) && ShapeOk(ext, row) && !VerdictTaken(db, v, row)
    ensures VerdictsOk(db.(verdicts := db.verdicts[v := row]), ext)
  {
    PutKeepsOnePerService(db, v, row);
  }

  /** The rows after a task: as before, or one row put where the wish goes. */
  function Slot(db: Db, org: Uuid, newId: Uuid, row: Verdict): Uuid {
    var existing := Pipeline.VerdictsFor(db, org, row.application, row.service);
    if |existing| == 1 then Pipeline.The(existing) else newId
  }

  lemma {:induction false} UpsertEffect(db: Db, org: Uuid, row: Verdict, calls: Pipeline.TaskCalls)
    requires PipelineVerdicts.OnePerService(db) && VerdictConsistent(db, Some(org), row) && row.org == org
    ensures
      var v := Slot(db, org, calls.newId, row);
      var next := Pipeline.VerdictUpserted(db, org, row, calls).0;
      next == db || (next == db.(verdicts := db.verdicts[v := row]) && !VerdictTaken(db, v, row))
  {
    StoredUnlessBlocked(db, org, calls.newId, row);
  }

  /** A step stores the row it wishes for, exactly so, or leaves the verdicts alone. */
  lemma {:induction false} StepEffect(db: Db, ext: Externals, e: Event)
    requires PipelineVerdicts.OnePerService(db)
    ensures
      var next := Step(db, ext, e);
      next.verdicts == db.verdicts
      || (&& Wish(db, ext, e).Some?
          && var (org, row, calls) := Wish(db, ext, e).value;
             var v := Slot(db, org, calls.newId, row);
             next == db.(verdicts := db.verdicts[v := row]) && !VerdictTaken(db, v, row) && ShapeOk(ext, row))
  {
    if Wish(db, ext, e).Some? {
      var (org, row, calls) := Wish(db, ext, e).value;
      TriggerNeverFires(db, ext, e);
      UpsertEffect(db, org, row, calls);
    }
  }

  lemma {:induction false} StepKeepsOk(db: Db, ext: Externals, e: Event)
    requires VerdictsOk(db, ext)
    ensures VerdictsOk(Step(db, ext, e), ext)
  {
    StepEffect(db, ext, e);
    var next := Step(db, ext, e);
    if next.verdicts != db.verdicts {
      var (org, row, calls) := Wish(db, ext, e).value;
      PutKeepsOk(db, ext, Slot(db, org, calls.newId, row), row);
    }
  }

  /** After any run of verdict tasks of both kinds, with any changes to other rows in
      between, there is at most one verdict per application and service, each of the shape
      its service demands, with a value of its scorer, and narrated by the Judge from it. */
  lemma {:induction false} VerdictsStaySound(db: Db, ext: Externals, es: seq<Event>)
    requires VerdictsOk(db, ext)
    ensures VerdictsOk(Run(db, ext, es), ext)
    decreases |es|
  {
    if es != [] {
      StepKeepsOk(db, ext, es[0]);
      VerdictsStaySound(Step(db, ext, es[0]), ext, es[1..]);
    }
  }

  lemma {:induction false} StepKeepsOnePerService(db: Db, ext: Externals, e: Event)
    requires PipelineVerdicts.OnePerService(db)
    ensures PipelineVerdicts.OnePerService(Step(db, ext, e))
  {
    StepEffect(db, ext, e);
    if Step(db, ext, e).verdicts != db.verdicts {
      var (org, row, calls) := Wish(db, ext, e).value;
      PutKeepsOnePerService(db, Slot(db, org, calls.newId, row), row);
    }
  }

  // ----- where a verdict comes from -----

  /** The row is what step `i` wished for, on the rows it read then. */
  ghost predicate WrittenAt(db: Db, ext: Externals, es: seq<Event>, i: nat, row: Verdict) {
    i < |es| && Wish(Run(db, ext, es[..i]), ext, es[i]).Some? && Wish(Run(db, ext, es[..i]), ext, es[i]).value.1 == row
  }

  lemma {:induction false} RunSplits(db: Db, ext: Externals, e: Event, es: seq<Event>, i: nat)
    requires i <= |es|
    ensures Run(db, ext, ([e] + es)[..i + 1]) == Run(Step(db, ext, e), ext, es[..i])
  {
    assert ([e] + es)[..i + 1] == [e] + es[..i];
    assert ([e] + es[..i])[1..] == es[..i];
  }

  lemma {:induction false} WrittenLater(db: Db, ext: Externals, es: seq<Event>, i: nat, row: Verdict)
    requires es != [] && WrittenAt(Step(db, ext, es[0]), ext, es[1..], i, row)
    ensures WrittenAt(db, ext, es, i + 1, row)
  {
    RunSplits(db, ext, es[0], es[1..], i);
    assert [es[0]] + es[1..] == es;
  }

  /** Every verdict there ever is was there at the start or is, unchanged, what one task of
      the run wished for: so its score is the scorer's value on what that task read, its
      narrative the Judge's answer to that score, and a reviewed interview was completed. */
  lemma {:induction false} VerdictsComeFromTasks(db: Db, ext: Externals, es: seq<Event>, v: Uuid)
    requires PipelineVerdicts.OnePerService(db) && v in Run(db, ext, es).verdicts
    ensures
      var row := Run(db, ext, es).verdicts[v];
      (v in db.verdicts && db.verdicts[v] == row) || exists i :: WrittenAt(db, ext, es, i, row)
    decreases |es|
  {
    if es != [] {
      var next := Step(db, ext, es[0]);
      var row := Run(db, ext, es).verdicts[v];
      StepEffect(db, ext, es[0]);
      StepKeepsOnePerService(db, ext, es[0]);
      VerdictsComeFromTasks(next, ext, es[1..], v);
      if i :| WrittenAt(next, ext, es[1..], i, row) {
        WrittenLater(db, ext, es, i, row);
      } else if !(v in db.verdicts && db.verdicts[v] == row) {
        assert es[..0] == [];
        assert WrittenAt(db, ext, es, 0, row);
      }
    }
  }
}
