/** Which ingests of a transcript succeed, and what they leave; which deliveries index it. */
module TranscriptIntake {
  import opened Basics
  import opened Encodings
  import opened Tasks
  import opened Chunking
  import opened Externals
  import opened Embedding
  import opened Transcripts
  import opened TranscriptService

  /** A transcript of this interview that the organization sees. */
  predicate IsOwn(rows: Rows, org: Uuid, interview: Uuid, t: Uuid) {
    t in rows && rows[t].org == org && rows[t].interview == interview
  }

  /** The interview exists, nobody has a transcript of it, and the drawn id is new. */
  ghost predicate CanCreate(interviews: map<Uuid, Option<Uuid>>, rows: Rows, interview: Uuid, newId: Uuid) {
    interview in interviews && newId !in rows && forall t :: t in rows ==> rows[t].interview != interview
  }

  /** Everything up to the commit works, and there is a transcript or one can be created. */
  ghost predicate Succeeds(interviews: map<Uuid, Option<Uuid>>, rows: Rows, org: Uuid, interview: Uuid, newId: Uuid,
                           intake: Intake, calls: IngestCalls) {
    && calls.find == calls.commit == Works && (intake.FromAudio? ==> calls.transcribe == Works)
    && ((exists t :: IsOwn(rows, org, interview, t)) || CanCreate(interviews, rows, interview, newId))
  }

  /** The row of the transcript after the ingest: a text comes with its language; a recording
      leaves the language there was, and a new row without one. */
  function RowOf(rows: Rows, org: Uuid, interview: Uuid, intake: Intake, id: Uuid): Transcript {
    match intake
    case FromText(text, language) => Transcript(org, interview, Available, Some(PlatformProvided), Some(text), language)
    case FromAudio(text) =>
      Transcript(org, interview, Available, Some(GeneratedStt), Some(text), if id in rows then rows[id].language else None)
  }

  lemma {:induction false} FindsOwn(rows: Rows, org: Uuid, interview: Uuid, t: Uuid)
    requires UniqueInterviews(rows) && IsOwn(rows, org, interview, t)
    ensures OfInterview(rows, org, interview) == {t}
  {
    assert t in OfInterview(rows, org, interview);
  }

  /** The rows with the transcript in place. */
  predicate IsFound(rows: Rows, org: Uuid, interview: Uuid, id: Uuid, found: Rows) {
    if IsOwn(rows, org, interview, id) then found == rows
    else id !in rows && found == rows[id := Transcript(org, interview, Waiting, None, None, None)]
  }

  /** The transcript that is found or created. */
  lemma {:induction false} GotExactly(interviews: map<Uuid, Option<Uuid>>, rows: Rows, org: Uuid, interview: Uuid,
                                      newId: Uuid) returns (id: Uuid)
    requires UniqueInterviews(rows)
    ensures IsOwn(rows, org, interview, id) || (id == newId && forall t :: !IsOwn(rows, org, interview, t))
    ensures
      var got := GotOrCreated(interviews, rows, org, interview, newId);
      && (got.Some? <==> IsOwn(rows, org, interview, id) || CanCreate(interviews, rows, interview, newId))
      && (got.Some? ==>
            && got.value.1 == id && IsFound(rows, org, interview, id, got.value.0))
  {
    if t :| IsOwn(rows, org, interview, t) {
      id := t;
      FindsOwn(rows, org, interview, t);
    } else {
      id := newId;
      assert forall t :: t in OfInterview(rows, org, interview) ==> IsOwn(rows, org, interview, t);
    }
  }

  lemma {:induction false} FillsExactly(rows: Rows, org: Uuid, interview: Uuid, intake: Intake, id: Uuid, found: Rows)
    requires IsFound(rows, org, interview, id, found)
    ensures id in found && found[id := Filled(found[id], intake)] == rows[id := RowOf(rows, org, interview, intake, id)]
  {
  }

  lemma {:induction false} IngestReturns(interviews: map<Uuid, Option<Uuid>>, rows: Rows, org: Uuid, interview: Uuid,
                                         newId: Uuid, intake: Intake, calls: IngestCalls)
    requires UniqueInterviews(rows)
    ensures Ingested(interviews, rows, org, interview, newId, intake, calls).2 == Returned <==>
      && calls.find == calls.commit == Works && (intake.FromAudio? ==> calls.transcribe == Works)
      && GotOrCreated(interviews, rows, org, interview, newId).Some?
  {
  }

  /** Exactly when an ingest commits a transcript, which one, and with what contents; all
      other rows stay, and an ingest that fails leaves every row as it was. */
  lemma {:induction false} IngestedExactly(interviews: map<Uuid, Option<Uuid>>, rows: Rows, org: Uuid, interview: Uuid,
                                           newId: Uuid, intake: Intake, calls: IngestCalls) returns (id: Uuid)
    requires UniqueInterviews(rows)
    ensures IsOwn(rows, org, interview, id) || (id == newId && forall t :: !IsOwn(rows, org, interview, t))
    ensures
      var (next, got, end) := Ingested(interviews, rows, org, interview, newId, intake, calls);
      if Succeeds(interviews, rows, org, interview, newId, intake, calls)
      then got == Some(id) && end == Returned && next == rows[id := RowOf(rows, org, interview, intake, id)]
      else got == None && end != Returned && next == rows
  {
    id := GotExactly(interviews, rows, org, interview, newId);
    var got := GotOrCreated(interviews, rows, org, interview, newId);
    if got.Some? {
      FillsExactly(rows, org, interview, intake, id, got.value.0);
    }
    assert (exists t :: IsOwn(rows, org, interview, t)) <==> IsOwn(rows, org, interview, id);
    IngestedCases(interviews, rows, org, interview, newId, intake, calls);
    IngestReturns(interviews, rows, org, interview, newId, intake, calls);
  }

  /** The machine's ingest, exactly: the row as above and a send to come, or nothing. */
  lemma {:induction false} IngestExactly(st: State, ext: Externals, org: Uuid, interview: Uuid, newId: Uuid,
                                         intake: Intake, calls: IngestCalls) returns (id: Uuid)
    requires UniqueInterviews(st.rows)
    ensures IsOwn(st.rows, org, interview, id) || (id == newId && forall t :: !IsOwn(st.rows, org, interview, t))
    ensures Step(st, ext, Ingest(org, interview, newId, intake, calls))
         == if Succeeds(st.interviews, st.rows, org, interview, newId, intake, calls)
            then st.(rows := st.rows[id := RowOf(st.rows, org, interview, intake, id)],
                     sending := st.sending + multiset{(id, org)})
            else st
  {
    id := IngestedExactly(st.interviews, st.rows, org, interview, newId, intake, calls);
  }

  /** The whole service, exactly: it returns if the send works as well, and the message is
      then on the broker; a row that was committed stays even if the send fails. */
  lemma {:induction false} ServiceExactly(st: State, ext: Externals, org: Uuid, interview: Uuid, newId: Uuid,
                                          intake: Intake, calls: IngestCalls) returns (id: Uuid)
    requires UniqueInterviews(st.rows) && st.sending == multiset{}
    ensures IsOwn(st.rows, org, interview, id) || (id == newId && forall t :: !IsOwn(st.rows, org, interview, t))
    ensures
      var (after, end) := IngestRun(st, ext, org, interview, newId, intake, calls);
      var success := Succeeds(st.interviews, st.rows, org, interview, newId, intake, calls);
      && (end == Returned <==> success && calls.send == Works)
      && (if success then
            && after.rows == st.rows[id := RowOf(st.rows, org, interview, intake, id)]
            && after.queue == (if calls.send == Works || calls.send == RaisesLate
                               then st.queue + multiset{Message(EmbedTranscript, id, org, 0)} else st.queue)
          else after == st)
      && after.index == st.index
  {
    id := IngestedExactly(st.interviews, st.rows, org, interview, newId, intake, calls);
    IngestRunIs(st, ext, org, interview, newId, intake, calls);
  }

  // ----- embed_transcript -----

  /** Every call of the delivery works, the candidate is visible, there is a collection, and
      the embedder gives one vector per chunk. Nothing is embedded or upserted without chunks. */
  ghost predicate Smooth(st: State, ext: Externals, id: Uuid, org: Uuid, interview: Uuid, text: string,
                         calls: TaskCalls) {
    && calls.load == Works && interview in st.interviews && st.interviews[interview].Some?
    && CollectionName(org) in st.index && calls.index.delete == Works
    && |Vectors(ext, Chunks(text))| == |Chunks(text)|
    && (Chunks(text) != [] ==> calls.index.embed == calls.index.upsert == Works)
  }

  lemma {:induction false} IndexedIff(st: State, ext: Externals, m: Message, text: string, calls: TaskCalls)
    requires m.id in st.rows && calls.load == Works
    ensures
      var interview := st.rows[m.id].interview;
      Indexed(st.interviews, st.index, ext, m.org, m.id, interview, text, calls.index).1 == Returned
      <==> Smooth(st, ext, m.id, m.org, interview, text, calls)
  {
    var interview := st.rows[m.id].interview;
    if interview in st.interviews && st.interviews[interview].Some? {
      EmbeddingExactly(st.index, ext, m.org, TRANSCRIPT, m.id, st.interviews[interview].value, text, calls.index);
    }
  }

  /** One delivery, exactly. If all goes smoothly the transcript is indexed as its text, and
      with the acknowledgement the message is gone; otherwise something is left to do it, or
      is on record as given up. The rows stay either way. */
  lemma {:induction false} DeliveryIndexes(st: State, ext: Externals, m: Message, calls: TaskCalls)
    requires Ok(st, ext) && st.active == None && m in st.queue
    requires m.id in st.rows && st.rows[m.id].org == m.org && HasText(st.rows[m.id])
    ensures
      var after := TaskRun(st, ext, m, calls);
      var text := st.rows[m.id].text.value;
      && after.rows == st.rows && after.interviews == st.interviews
      && (if Smooth(st, ext, m.id, m.org, st.rows[m.id].interview, text, calls) then
            && IndexedAs(after.interviews, after.index, ext, m.id, after.rows[m.id], text)
            && after.queue == (if calls.ack == Works then st.queue - multiset{m} else st.queue)
          else Covered(after.queue, after, m.id, m.org))
  {
    var text := st.rows[m.id].text.value;
    TaskRunIs(st, ext, m, calls);
    IndexedIff(st, ext, m, text, calls.(load := Works));
    IndexedEffect(st, ext, m.id, text, calls.index);
    var (ix, end) := TaskEffect(st, ext, m, calls);
    if end != Returned {
      UnfinishedIsCovered(st.(index := ix), m, end, calls.ack, true);
    }
  }
}
