/** What each kind of step can leave behind, as a short list of cases. */
module PipelineFacts {
  import opened Basics
  import opened Text
  import opened Encodings
  import opened Tasks
  import opened ResumeFit
  import opened Schema
  import opened VectorStore
  import opened Externals
  import opened Embedding
  import opened Pipeline

  function EmbedMessage(m: Message): Message {
    Message(EmbedResume, m.id, m.org, 0)
  }

  function FailedParse(row: Resume, error: string): Resume {
    row.(status := ParseFailed, parseError := Some(error))
  }

  function GoodParse(row: Resume, data: ParsedData): Resume {
    row.(status := Parsed, parsedData := Some(data), parseError := None)
  }

  /** A parse run changes nothing, records a failure, or records the extractor's value and
      then possibly enqueues the embed task. */
  ghost predicate ParseCases(w: World, ext: Externals, m: Message, calls: TaskCalls, v: World, end: End) {
    match VisibleResume(w.db, m.org, m.id)
    case None => v == w
    case Some(row) =>
      || (v == w && end != Returned)
      || (v == WithResume(w, m.id, FailedParse(row, calls.error)) && end == Returned)
      || (&& FileText(ext, w.objects, row.key).Some?
          && var saved := WithResume(w, m.id, GoodParse(row, ext.extractor(FileText(ext, w.objects, row.key).value)));
             || (v == saved && end != Returned)
             || (v == saved.(queue := saved.queue + multiset{EmbedMessage(m)}) && end != Lost))
  }

  /** No worker is lost during the attempt, and the acknowledgement gets through. */
  predicate LossFree(calls: TaskCalls) {
    && calls.load != Dies && calls.download != Dies && calls.extract != Dies
    && calls.index.embed != Dies && calls.index.delete != Dies && calls.index.upsert != Dies
    && calls.search != Dies && calls.judge != Dies && calls.commit != Dies && calls.send != Dies
    && calls.ack == Works
  }

  lemma {:induction false} ParseEffect(w: World, ext: Externals, m: Message, calls: TaskCalls)
    ensures var (v, end) := ParseRun(w, ext, m, calls); ParseCases(w, ext, m, calls, v, end)
    ensures LossFree(calls) ==> ParseRun(w, ext, m, calls).1 != Lost
  {
  }

  function FailedEmbed(row: Resume, error: string): Resume {
    row.(embeddingStatus := EmbedFailed, embeddingError := Some(error))
  }

  function GoodEmbed(row: Resume): Resume {
    row.(embeddingStatus := Embedded, embeddingError := None)
  }

  /** The index operations of an embed run: none, or those of `_embed_and_upsert`. */
  ghost predicate IndexCases(w: World, ext: Externals, m: Message, row: Resume, calls: TaskCalls, ix: Index,
                             completed: bool) {
    || (ix == w.index && !completed)
    || (&& FileText(ext, w.objects, row.key).Some?
        && var (jx, end) := SourceEmbedded(w.index, ext, m.org, RESUME, m.id, row.candidate,
                                           FileText(ext, w.objects, row.key).value, calls.index);
           ix == jx && (completed <==> end == Returned))
  }

  /** An embed run may change the index; it then commits a status or does not. */
  ghost predicate EmbedCase(w: World, ext: Externals, m: Message, row: Resume, calls: TaskCalls, v: World, end: End,
                            completed: bool) {
    && IndexCases(w, ext, m, row, calls, v.index, completed)
    && var touched := w.(index := v.index);
       || (v == touched && end != Returned)
       || (v == WithResume(touched, m.id, FailedEmbed(row, calls.error)) && end == Returned && !completed)
       || (v == WithResume(touched, m.id, GoodEmbed(row)) && end == Returned && completed)
  }

  ghost predicate EmbedCases(w: World, ext: Externals, m: Message, calls: TaskCalls, v: World, end: End) {
    match VisibleResume(w.db, m.org, m.id)
    case None => v == w
    case Some(row) => exists completed: bool :: EmbedCase(w, ext, m, row, calls, v, end, completed)
  }

  lemma {:induction false} EmbedEffect(w: World, ext: Externals, m: Message, calls: TaskCalls)
    ensures var (v, end) := EmbedRun(w, ext, m, calls); EmbedCases(w, ext, m, calls, v, end)
  {
    var (v, end) := EmbedRun(w, ext, m, calls);
    var visible := VisibleResume(w.db, m.org, m.id);
    if Ask(calls.load) == Returned && visible.Some? {
      var (ix, work) := EmbedWork(w, ext, m, visible.value, calls);
      assert IndexCases(w, ext, m, visible.value, calls, ix, work.Gave?);
      assert v.index == ix;
      assert EmbedCase(w, ext, m, visible.value, calls, v, end, work.Gave?);
    } else if visible.Some? {
      assert EmbedCase(w, ext, m, visible.value, calls, v, end, false);
    }
  }

  lemma {:induction false} EmbeddingEnd(ix: Index, ext: Externals, org: Uuid, sourceType: string, sourceId: Uuid,
                                        candidateId: Uuid, text: string, calls: EmbedCalls)
    requires calls.embed != Dies && calls.delete != Dies && calls.upsert != Dies
    ensures SourceEmbedded(ix, ext, org, sourceType, sourceId, candidateId, text, calls).1 != Lost
  {
  }

  lemma {:induction false} EmbedWorkEnd(w: World, ext: Externals, m: Message, row: Resume, calls: TaskCalls)
    requires LossFree(calls)
    ensures !EmbedWork(w, ext, m, row, calls).1.Died?
  {
    if FileText(ext, w.objects, row.key).Some? {
      EmbeddingEnd(w.index, ext, m.org, RESUME, m.id, row.candidate, FileText(ext, w.objects, row.key).value, calls.index);
    }
  }

  lemma {:induction false} EmbedEnd(w: World, ext: Externals, m: Message, calls: TaskCalls)
    ensures LossFree(calls) ==> EmbedRun(w, ext, m, calls).1 != Lost
  {
    var visible := VisibleResume(w.db, m.org, m.id);
    if LossFree(calls) && visible.Some? {
      EmbedWorkEnd(w, ext, m, visible.value, calls);
    }
  }

  lemma {:induction false} VerdictSavedEffect(w: World, org: Uuid, row: Verdict, calls: TaskCalls)
    ensures
      var (v, end) := VerdictSaved(w, org, row, calls);
      && (v == w || v == w.(db := w.db.(verdicts := v.db.verdicts)))
      && (LossFree(calls) ==> end != Lost)
  {
  }

  lemma {:induction false} ContextEnd(ix: Index, ext: Externals, org: Uuid, id: Uuid, vectors: seq<Vector>, call: Call)
    ensures call != Dies ==> Context(ix, ext, org, RESUME, id, vectors, call).0 != Lost
  {
  }

  lemma {:induction false} AssessedEnd(w: World, ext: Externals, m: Message, resumeId: Uuid, data: ParsedData,
                                       requisition: Requisition, calls: TaskCalls)
    requires calls.index.embed != Dies && calls.search != Dies && calls.judge != Dies
    ensures Assessed(w, ext, m, resumeId, data, requisition, calls).0 != Lost
  {
    var score := ScoreResumeFit(data, Requirements(requisition));
    ContextEnd(w.index, ext, m.org, resumeId, ext.embed([QueryText(requisition.title, score)]), calls.search);
  }

  lemma {:induction false} VerdictForEnd(w: World, ext: Externals, m: Message, calls: TaskCalls)
    ensures LossFree(calls) ==> VerdictFor(w, ext, m, calls).0 != Lost
  {
    var app := VisibleApplication(w.db, m.org, m.id);
    if LossFree(calls) && app.Some? {
      var resume, requisition := VisibleResume(w.db, m.org, app.value.resume),
                                 VisibleRequisition(w.db, m.org, app.value.requisition);
      if resume.Some? && requisition.Some? && resume.value.parsedData.Some? {
        AssessedEnd(w, ext, m, app.value.resume, resume.value.parsedData.value, requisition.value, calls);
      }
    }
  }

  /** A verdict run changes nothing but, possibly, the verdict rows. */
  lemma {:induction false} VerdictEffect(w: World, ext: Externals, m: Message, calls: TaskCalls)
    ensures
      var (v, end) := VerdictRun(w, ext, m, calls);
      && (v == w || v == w.(db := w.db.(verdicts := v.db.verdicts)))
      && (LossFree(calls) ==> end != Lost)
  {
    VerdictForEnd(w, ext, m, calls);
    var row := VerdictFor(w, ext, m, calls).1;
    if row.Some? {
      VerdictSavedEffect(w, m.org, row.value, calls);
    }
  }

  // ----- submissions -----

  /** The rows a submission wants to commit. */
  function SubmissionRows(db: Db, sub: Submission, calls: SubmitCalls): Answer {
    var (found, candidate) := CandidateStored(db, sub, calls.candidate);
    if found.Refused? then Refused else SubmissionStored(found.db, sub, candidate, calls)
  }

  function KeyOf(sub: Submission, calls: SubmitCalls): string {
    ObjectKey(sub.org, calls.resume, sub.filename)
  }

  /** A submission leaves at most an object behind, or it commits all its rows and then
      possibly enqueues the parse task. */
  ghost predicate SubmitCases(w: World, sub: Submission, calls: SubmitCalls, v: World, end: End) {
    var uploaded := w.(objects := w.objects[KeyOf(sub, calls) := sub.content]);
    var rows := SubmissionRows(w.db, sub, calls);
    || (v == w && end != Returned)
    || (v == uploaded && end != Returned)
    || (&& rows.Done?
        && var saved := uploaded.(db := rows.db);
           || (v == saved && end != Returned && calls.send != Works && calls.send != RaisesLate)
           || (v == saved.(queue := saved.queue + multiset{Message(ParseResume, calls.resume, sub.org, 0)})
               && (calls.send == Works || calls.send == RaisesLate)))
  }

  lemma {:induction false} SubmitEffect(w: World, sub: Submission, calls: SubmitCalls)
    ensures var (v, end) := SubmitRun(w, sub, calls); SubmitCases(w, sub, calls, v, end)
  {
    var (found, candidate) := CandidateStored(w.db, sub, calls.candidate);
    if Ask(calls.find) == Returned && found.Done? && Ask(calls.upload) == Returned {
      var v := w.(objects := w.objects[KeyOf(sub, calls) := sub.content]);
      var rows := SubmissionStored(found.db, sub, candidate, calls);
      assert SubmissionRows(w.db, sub, calls) == rows;
      if rows.Done? && calls.commit == Works {
        assert SubmitRun(w, sub, calls)
            == Sent(v.(db := rows.db), Message(ParseResume, calls.resume, sub.org, 0), calls.send);
      }
    }
  }

  /** The committed rows: one resume and one application under new ids, for a candidate of
      the organization that either existed or is new. */
  ghost predicate RowsCases(db: Db, sub: Submission, calls: SubmitCalls, next: Db, candidate: Uuid) {
    && calls.resume !in db.resumes && calls.application !in db.applications
    && next == db.(candidates := next.candidates,
                   resumes := db.resumes[calls.resume := NewResume(sub, candidate, KeyOf(sub, calls))],
                   applications := db.applications[calls.application :=
                     Application(sub.org, candidate, sub.requisition, calls.resume, Submitted)])
    && ((candidate in db.candidates && next.candidates == db.candidates)
        || (&& candidate == calls.candidate && candidate !in db.candidates
            && next.candidates == db.candidates[candidate := Candidate(sub.org, sub.email, sub.fullName, sub.phone)]))
    && candidate in next.candidates && next.candidates[candidate].org == sub.org
    && Lower(next.candidates[candidate].email) == Lower(sub.email)
  }

  lemma {:induction false} RowsEffect(db: Db, sub: Submission, calls: SubmitCalls) returns (candidate: Uuid)
    requires SubmissionRows(db, sub, calls).Done?
    ensures RowsCases(db, sub, calls, SubmissionRows(db, sub, calls).db, candidate)
  {
    candidate := CandidateStored(db, sub, calls.candidate).1;
  }
}
