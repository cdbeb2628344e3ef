/** What one attempt of `parse_resume` and of `embed_resume` does, exactly, by how its calls
    end. */
module PipelineRuns {
  import opened Basics
  import opened Encodings
  import opened Tasks
  import opened Schema
  import opened ResumeFit
  import opened VectorStore
  import opened Externals
  import opened Chunking
  import opened Embedding
  import opened Pipeline
  import opened SameOrganization
  import opened PipelineSubmissions

  predicate IsOwnResume(db: Db, org: Uuid, id: Uuid) {
    id in db.resumes && db.resumes[id].org == org
  }

  /** The file is stored, in a format that yields a text. */
  predicate Readable(ext: Externals, objects: map<string, Bytes>, key: string) {
    key in objects && ExtractText(ext, objects[key], key).Some?
  }

  function TextIn(ext: Externals, objects: map<string, Bytes>, key: string): string
    requires Readable(ext, objects, key)
  {
    ExtractText(ext, objects[key], key).value
  }

  /** The other columns of a row stay. */
  function WithParse(row: Resume, status: ResumeStatus, data: Option<ParsedData>, error: Option<string>): Resume {
    Resume(row.org, row.candidate, row.key, status, data, error, row.embeddingStatus, row.embeddingError)
  }

  function WithEmbedding(row: Resume, status: EmbeddingStatus, error: Option<string>): Resume {
    Resume(row.org, row.candidate, row.key, row.status, row.parsedData, row.parseError, status, error)
  }

  /** Without the row, an attempt does nothing, and returns if it could look. */
  lemma {:induction false} WithoutRowNothing(w: World, ext: Externals, m: Message, calls: TaskCalls)
    requires calls.load != Works || !IsOwnResume(w.db, m.org, m.id)
    ensures ParseRun(w, ext, m, calls).0 == EmbedRun(w, ext, m, calls).0 == w
    ensures ParseRun(w, ext, m, calls).1 == Returned <==> calls.load == Works
    ensures EmbedRun(w, ext, m, calls).1 == Returned <==> calls.load == Works
  {
  }

  /** The rows and the queue with this row and these messages more. */
  ghost predicate Leaves(w: World, after: World, id: Uuid, row: Resume, more: multiset<Message>) {
    after == w.(db := w.db.(resumes := w.db.resumes[id := row]), queue := w.queue + more, index := after.index)
  }

  lemma {:induction false} ParseSavedExactly(w: World, m: Message, row: Resume, work: Work<ParsedData>,
                                             calls: TaskCalls)
    ensures
      var (after, end) := ParseSaved(w, m, row, work, calls);
      var sent := if calls.send == Works || calls.send == RaisesLate
                  then multiset{Message(EmbedResume, m.id, m.org, 0)} else multiset{};
      if work.Died? || calls.commit != Works then after == w && end != Returned
      else if work.Threw? then
        && Leaves(w, after, m.id, WithParse(row, ParseFailed, row.parsedData, Some(calls.error)), multiset{})
        && after.index == w.index && end == Returned
      else
        && Leaves(w, after, m.id, WithParse(row, Parsed, Some(work.value), None), sent)
        && after.index == w.index && (end == Returned <==> calls.send == Works)
  {
  }

  lemma {:induction false} ParseWorkExactly(w: World, ext: Externals, key: string, calls: TaskCalls)
    ensures
      var read := calls.download == Works && Readable(ext, w.objects, key);
      var work := ParseWork(w, ext, key, calls);
      && (work.Died? <==> calls.download == Dies || (read && calls.extract == Dies))
      && (work.Gave? <==> read && calls.extract == Works)
      && (work.Gave? ==> work.value == ext.extractor(TextIn(ext, w.objects, key)))
  {
  }

  /** A resume is parsed, and its embedding requested, exactly if the file can be read and
      extracted and the commit works; a failure is recorded exactly if something raised
      before the commit; otherwise nothing changes. */
  lemma {:induction false} ParseRunExactly(w: World, ext: Externals, m: Message, calls: TaskCalls)
    requires calls.load == Works && IsOwnResume(w.db, m.org, m.id)
    ensures
      var row := w.db.resumes[m.id];
      var read := calls.download == Works && Readable(ext, w.objects, row.key);
      var sent := if calls.send == Works || calls.send == RaisesLate
                  then multiset{Message(EmbedResume, m.id, m.org, 0)} else multiset{};
      var (after, end) := ParseRun(w, ext, m, calls);
      if calls.download == Dies || (read && calls.extract == Dies) || calls.commit != Works then after == w && end != Returned
      else if read && calls.extract == Works then
        && Leaves(w, after, m.id, WithParse(row, Parsed, Some(ext.extractor(TextIn(ext, w.objects, row.key))), None), sent)
        && after.index == w.index && (end == Returned <==> calls.send == Works)
      else
        && Leaves(w, after, m.id, WithParse(row, ParseFailed, row.parsedData, Some(calls.error)), multiset{})
        && after.index == w.index && end == Returned
  {
    var row := w.db.resumes[m.id];
    ParseWorkExactly(w, ext, row.key, calls);
    ParseSavedExactly(w, m, row, ParseWork(w, ext, row.key, calls), calls);
  }

  // ----- embed_resume -----

  /** The embedder gives one vector per chunk, if there are chunks at all. */
  predicate Embeds(ext: Externals, text: string, calls: EmbedCalls) {
    (Chunks(text) != [] ==> calls.embed == Works) && |Vectors(ext, Chunks(text))| == |Chunks(text)|
  }

  /** The old points are deleted and the new ones, if any, written. */
  predicate Replaces(ix: Index, ext: Externals, org: Uuid, text: string, calls: EmbedCalls) {
    && Embeds(ext, text, calls) && CollectionName(org) in ix && calls.delete == Works
    && (Chunks(text) != [] ==> calls.upsert == Works)
  }

  /** The process is lost in one of the calls that are made. */
  predicate DiesIndexing(ix: Index, ext: Externals, org: Uuid, text: string, calls: EmbedCalls) {
    || (Chunks(text) != [] && calls.embed == Dies)
    || (Embeds(ext, text, calls) && calls.delete == Dies)
    || (&& Embeds(ext, text, calls) && CollectionName(org) in ix && calls.delete == Works
        && Chunks(text) != [] && calls.upsert == Dies)
  }

  lemma {:induction false} IndexingEnd(ix: Index, ext: Externals, org: Uuid, id: Uuid, candidate: Uuid, text: string,
                                       calls: EmbedCalls)
    ensures
      var end := SourceEmbedded(ix, ext, org, RESUME, id, candidate, text, calls).1;
      && (end == Returned <==> Replaces(ix, ext, org, text, calls))
      && (end == Lost <==> DiesIndexing(ix, ext, org, text, calls))
  {
    EmbeddingExactly(ix, ext, org, RESUME, id, candidate, text, calls);
  }

  lemma {:induction false} EmbedSavedExactly(w: World, m: Message, row: Resume, work: Work<()>, calls: TaskCalls)
    ensures
      var (after, end) := EmbedSaved(w, m, row, work, calls);
      && (end == Returned <==> !work.Died? && calls.commit == Works)
      && (if end != Returned then after == w
          else if work.Gave? then Leaves(w, after, m.id, WithEmbedding(row, Embedded, None), multiset{})
          else Leaves(w, after, m.id, WithEmbedding(row, EmbedFailed, Some(calls.error)), multiset{}))
      && after.index == w.index
  {
  }

  lemma {:induction false} EmbedWorkExactly(w: World, ext: Externals, m: Message, row: Resume, calls: TaskCalls)
    ensures
      var read := calls.download == Works && Readable(ext, w.objects, row.key);
      var (ix, work) := EmbedWork(w, ext, m, row, calls);
      && (work.Died? <==>
            calls.download == Dies || (read && DiesIndexing(w.index, ext, m.org, TextIn(ext, w.objects, row.key), calls.index)))
      && (work.Gave? <==> read && Replaces(w.index, ext, m.org, TextIn(ext, w.objects, row.key), calls.index))
      && (!read ==> ix == w.index)
  {
    if calls.download == Works && Readable(ext, w.objects, row.key) {
      IndexingEnd(w.index, ext, m.org, m.id, row.candidate, TextIn(ext, w.objects, row.key), calls.index);
    }
  }

  /** A resume becomes embedded exactly if its file can be read, its points are replaced and
      the commit works; a failure is recorded exactly if something raised before the commit;
      otherwise no row changes. What the index holds then is said in `Embedding`. */
  lemma {:induction false} EmbedRunExactly(w: World, ext: Externals, m: Message, calls: TaskCalls)
    requires calls.load == Works && IsOwnResume(w.db, m.org, m.id)
    ensures
      var row := w.db.resumes[m.id];
      var read := calls.download == Works && Readable(ext, w.objects, row.key);
      var died := calls.download == Dies
        || (read && DiesIndexing(w.index, ext, m.org, TextIn(ext, w.objects, row.key), calls.index));
      var (after, end) := EmbedRun(w, ext, m, calls);
      && (end == Returned <==> !died && calls.commit == Works)
      && (if end != Returned then after == w.(index := after.index)
          else if read && Replaces(w.index, ext, m.org, TextIn(ext, w.objects, row.key), calls.index)
          then Leaves(w, after, m.id, WithEmbedding(row, Embedded, None), multiset{})
          else Leaves(w, after, m.id, WithEmbedding(row, EmbedFailed, Some(calls.error)), multiset{}))
      && (!read ==> after.index == w.index)
  {
    var row := w.db.resumes[m.id];
    var (ix, work) := EmbedWork(w, ext, m, row, calls);
    EmbedWorkExactly(w, ext, m, row, calls);
    EmbedSavedExactly(w.(index := ix), m, row, work, calls);
  }

  // ----- all of it -----

  predicate AllWork(calls: TaskCalls) {
    && calls.load == calls.download == calls.extract == calls.commit == calls.send == calls.ack == Works
    && calls.index == EmbedCalls(Works, Works, Works)
  }

  lemma {:induction false} SmoothParse(w: World, ext: Externals, m: Message, calls: TaskCalls)
    requires m in w.queue && m.kind == ParseResume && AllWork(calls)
    requires IsOwnResume(w.db, m.org, m.id) && Readable(ext, w.objects, w.db.resumes[m.id].key)
    ensures
      var row := w.db.resumes[m.id];
      var data := ext.extractor(TextIn(ext, w.objects, row.key));
      Delivered(w, ext, m, calls)
      == w.(db := w.db.(resumes := w.db.resumes[m.id := WithParse(row, Parsed, Some(data), None)]),
            queue := w.queue - multiset{m} + multiset{Message(EmbedResume, m.id, m.org, 0)})
  {
    ParseRunExactly(w, ext, m, calls);
    var (v, end) := ParseRun(w, ext, m, calls);
    var sent := multiset{Message(EmbedResume, m.id, m.org, 0)};
    assert w.queue + sent - multiset{m} == w.queue - multiset{m} + sent;
  }

  lemma {:induction false} SmoothPoints(w: World, ext: Externals, m: Message, calls: TaskCalls)
    requires AllWork(calls) && CollectionName(m.org) in w.index
    requires IsOwnResume(w.db, m.org, m.id) && Readable(ext, w.objects, w.db.resumes[m.id].key)
    requires Embeds(ext, TextIn(ext, w.objects, w.db.resumes[m.id].key), calls.index)
    ensures
      var row := w.db.resumes[m.id];
      PointsOf(CollectionOf(EmbedRun(w, ext, m, calls).0.index, m.org), RESUME, m.id)
      == PointMap(SourcePoints(ext, m.org, RESUME, m.id, row.candidate, TextIn(ext, w.objects, row.key)))
  {
    var row := w.db.resumes[m.id];
    var text := TextIn(ext, w.objects, row.key);
    EmbeddingExactly(w.index, ext, m.org, RESUME, m.id, row.candidate, text, calls.index);
    assert EmbedWork(w, ext, m, row, calls).0
        == SourceEmbedded(w.index, ext, m.org, RESUME, m.id, row.candidate, text, calls.index).0;
  }

  lemma {:induction false} SmoothEmbed(w: World, ext: Externals, m: Message, calls: TaskCalls)
    requires m in w.queue && m.kind == EmbedResume && AllWork(calls) && CollectionName(m.org) in w.index
    requires IsOwnResume(w.db, m.org, m.id) && Readable(ext, w.objects, w.db.resumes[m.id].key)
    requires Embeds(ext, TextIn(ext, w.objects, w.db.resumes[m.id].key), calls.index)
    ensures
      var row := w.db.resumes[m.id];
      var after := Delivered(w, ext, m, calls);
      && after == w.(db := w.db.(resumes := w.db.resumes[m.id := WithEmbedding(row, Embedded, None)]),
                     queue := w.queue - multiset{m}, index := EmbedRun(w, ext, m, calls).0.index)
  {
    EmbedRunExactly(w, ext, m, calls);
  }

  function ParseMessageOf(sub: Submission, calls: SubmitCalls): Message {
    Message(ParseResume, calls.resume, sub.org, 0)
  }

  function EmbedMessageOf(sub: Submission, calls: SubmitCalls): Message {
    Message(EmbedResume, calls.resume, sub.org, 0)
  }

  /** What the pipeline is for: a submission that returns, of a file that yields a text, and
      whose two tasks go smoothly, ends with the resume parsed and embedded, its collection
      holding exactly the file's points for it, and nothing left to do. */
  lemma {:induction false} SmoothPipeline(w: World, ext: Externals, sub: Submission, submitCalls: SubmitCalls,
                                          parseCalls: TaskCalls, embedCalls: TaskCalls) returns (c: Uuid)
    requires Sound(w.db) && NewIds(w.db, submitCalls) && SubmitRun(w, sub, submitCalls).1 == Returned
    requires AllWork(parseCalls) && AllWork(embedCalls) && CollectionName(sub.org) in w.index
    requires ExtractText(ext, sub.content, sub.filename).Some?
    requires Embeds(ext, ExtractText(ext, sub.content, sub.filename).value, embedCalls.index)
    ensures
      var text := ExtractText(ext, sub.content, sub.filename).value;
      var parsed := Delivered(SubmitRun(w, sub, submitCalls).0, ext, ParseMessageOf(sub, submitCalls), parseCalls);
      var after := Delivered(parsed, ext, EmbedMessageOf(sub, submitCalls), embedCalls);
      && after.queue == w.queue && after.dropped == w.dropped
      && submitCalls.resume in after.db.resumes
      && after.db.resumes[submitCalls.resume]
         == Resume(sub.org, c, ObjectKey(sub.org, submitCalls.resume, sub.filename), Parsed, Some(ext.extractor(text)),
                   None, Embedded, None)
      && IsApplicant(after.db, sub.org, sub.email, c)
      && PointsOf(CollectionOf(after.index, sub.org), RESUME, submitCalls.resume)
         == PointMap(SourcePoints(ext, sub.org, RESUME, submitCalls.resume, c, text))
  {
    c := SubmissionEnters(w, sub, submitCalls);
    var entered := SubmitRun(w, sub, submitCalls).0;
    ExtractionIgnoresPrefix(ext, sub.content, sub.org, submitCalls.resume, sub.filename);
    var m, n := ParseMessageOf(sub, submitCalls), EmbedMessageOf(sub, submitCalls);
    SmoothParse(entered, ext, m, parseCalls);
    var parsed := Delivered(entered, ext, m, parseCalls);
    assert parsed.queue == w.queue + multiset{n};
    SmoothEmbed(parsed, ext, n, embedCalls);
    SmoothPoints(parsed, ext, n, embedCalls);
    assert w.queue + multiset{n} - multiset{n} == w.queue;
  }
}
