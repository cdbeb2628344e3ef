/** The resume pipeline over Postgres, Qdrant, the object store and the broker: what one
    submission or one delivery of a task does to all four, call failures included. */
module Pipeline {
  import opened Basics
  import opened Text
  import opened Encodings
  import opened Tasks
  import opened ResumeFit
  import opened Schema
  import opened VectorStore
  import opened Externals
  import opened Embedding

  datatype TaskKind = ParseResume | EmbedResume | ResumeVerdict

  type Message = TaskMessage<TaskKind>

  /** Committed rows, collections, objects, unacknowledged messages, and the messages
      given up on after their last attempt. */
  datatype World = World(
    db: Db, index: Index, objects: map<string, Bytes>,
    queue: multiset<Message>, dropped: multiset<Message>)

  /** How each external call of one delivery ends, with the text of the exception caught
      and the id the database would draw for a new row. */
  datatype TaskCalls = TaskCalls(
    load: Call, download: Call, extract: Call, index: EmbedCalls, search: Call, judge: Call,
    commit: Call, send: Call, ack: Call, error: string, newId: Uuid)

  // ----- shared steps -----

  /** A commit that raises has committed nothing. */
  function Committed<T>(before: T, after: T, call: Call): (T, End) {
    if call == Works then (after, Returned) else (before, Ask(call))
  }

  /** `send_task` */
  function Sent(w: World, m: Message, call: Call): (World, End) {
    Perform(w, w.(queue := w.queue + multiset{m}), call)
  }

  /** `session.get(Resume, id)` under the session's policies. */
  function VisibleResume(db: Db, org: Uuid, id: Uuid): Option<Resume> {
    if id in db.resumes && Allows(Some(org), db.resumes[id].org) then Some(db.resumes[id]) else None
  }

  function VisibleApplication(db: Db, org: Uuid, id: Uuid): Option<Application> {
    if id in db.applications && Allows(Some(org), db.applications[id].org) then Some(db.applications[id]) else None
  }

  function VisibleRequisition(db: Db, org: Uuid, id: Uuid): Option<Requisition> {
    if id in db.requisitions && Allows(Some(org), db.requisitions[id].org) then Some(db.requisitions[id]) else None
  }

  /** The text behind an object key; `None` if the object or its format is missing. */
  function FileText(ext: Externals, objects: map<string, Bytes>, key: string): Option<string> {
    if key in objects then ExtractText(ext, objects[key], key) else None
  }

  function WithResume(w: World, id: Uuid, row: Resume): World {
    w.(db := w.db.(resumes := w.db.resumes[id := row]))
  }

  /** The body of a `try`: a value, a caught exception, or the loss of the process. */
  datatype Work<+T> = Gave(value: T) | Threw | Died

  // ----- parse_resume -----

  function ParseWork(w: World, ext: Externals, key: string, calls: TaskCalls): Work<ParsedData> {
    if Ask(calls.download) == Lost then Died
    else if Ask(calls.download) == Raised || FileText(ext, w.objects, key).None? then Threw
    else if Ask(calls.extract) == Lost then Died
    else if Ask(calls.extract) == Raised then Threw
    else Gave(ext.extractor(FileText(ext, w.objects, key).value))
  }

  /** The status is committed, and after a success the embed task is sent. */
  function ParseSaved(w: World, m: Message, row: Resume, work: Work<ParsedData>, calls: TaskCalls): (World, End) {
    match work
    case Died => (w, Lost)
    case Threw =>
      Committed(w, WithResume(w, m.id, row.(status := ParseFailed, parseError := Some(calls.error))), calls.commit)
    case Gave(data) =>
      var done := WithResume(w, m.id, row.(status := Parsed, parsedData := Some(data), parseError := None));
      var (saved, end) := Committed(w, done, calls.commit);
      if end != Returned then (saved, end)
      else Sent(saved, Message(EmbedResume, m.id, m.org, 0), calls.send)
  }

  function ParseRun(w: World, ext: Externals, m: Message, calls: TaskCalls): (World, End) {
    if Ask(calls.load) != Returned then (w, Ask(calls.load))
    else match VisibleResume(w.db, m.org, m.id)
      case None => (w, Returned)
      case Some(row) => ParseSaved(w, m, row, ParseWork(w, ext, row.key, calls), calls)
  }

  // ----- embed_resume -----

  /** Index operations take effect whether or not the status is committed afterwards. */
  function EmbedWork(w: World, ext: Externals, m: Message, row: Resume, calls: TaskCalls): (Index, Work<()>) {
    if Ask(calls.download) == Lost then (w.index, Died)
    else if Ask(calls.download) == Raised || FileText(ext, w.objects, row.key).None? then (w.index, Threw)
    else
      var (ix, end) := SourceEmbedded(w.index, ext, m.org, RESUME, m.id, row.candidate,
                                      FileText(ext, w.objects, row.key).value, calls.index);
      (ix, match end case Returned => Gave(()) case Raised => Threw case Lost => Died)
  }

  function EmbedSaved(w: World, m: Message, row: Resume, work: Work<()>, calls: TaskCalls): (World, End) {
    match work
    case Died => (w, Lost)
    case Threw =>
      Committed(w, WithResume(w, m.id, row.(embeddingStatus := EmbedFailed, embeddingError := Some(calls.error))),
                calls.commit)
    case Gave(_) =>
      Committed(w, WithResume(w, m.id, row.(embeddingStatus := Embedded, embeddingError := None)), calls.commit)
  }

  function EmbedRun(w: World, ext: Externals, m: Message, calls: TaskCalls): (World, End) {
    if Ask(calls.load) != Returned then (w, Ask(calls.load))
    else match VisibleResume(w.db, m.org, m.id)
      case None => (w, Returned)
      case Some(row) =>
        var (ix, work) := EmbedWork(w, ext, m, row, calls);
        EmbedSaved(w.(index := ix), m, row, work, calls)
  }

  // ----- generate_resume_verdict -----

  function Requirements(r: Requisition): seq<Json> {
    OrEmpty(r.requiredSkills)
  }

  function JoinWith(sep: string, ws: seq<string>): string {
    if |ws| == 0 then "" else if |ws| == 1 then ws[0] else ws[0] + sep + JoinWith(sep, ws[1..])
  }

  function QueryText(title: string, score: Score): string {
    var skills := score.matched + score.missing;
    if skills == [] then title else title + ". Required skills: " + JoinWith(", ", skills)
  }

  function Task(title: string): string {
    "Assess this candidate's resume fit for the '" + title + "' requisition."
  }

  function Texts(points: seq<Point>): seq<string> {
    seq(|points|, i requires 0 <= i < |points| => points[i].chunkText)
  }

  /** The retrieved context; a missing collection or a failed call raises. */
  function Context(ix: Index, ext: Externals, org: Uuid, sourceType: string, sourceId: Uuid, vectors: seq<Vector>,
                   call: Call):
    (End, seq<string>) {
    if vectors == [] then (Returned, [])
    else if CollectionName(org) !in ix then (if call == Dies then Lost else Raised, [])
    else if Ask(call) != Returned then (Ask(call), [])
    else (Returned, Texts(ext.rank(vectors[0], Wanted(ix[CollectionName(org)], org, Some(sourceType), Some(sourceId)))))
  }

  /** The verdict rows of one application and service that a session can see. */
  function VerdictsFor(db: Db, org: Uuid, application: Uuid, service: ServiceType): set<Uuid> {
    set v | v in db.verdicts && Allows(Some(org), db.verdicts[v].org)
      && db.verdicts[v].application == application && db.verdicts[v].service == service
  }

  /** `scalar_one_or_none` on a single row. */
  function The(s: set<Uuid>): (u: Uuid)
    requires |s| == 1
    ensures u in s
  {
    assert s != {};
    assert forall u, v :: u in s && v in s ==> u == v by {
      forall u, v | u in s && v in s
        ensures u == v
      {
        assert |s - {u}| == 0;
        assert v !in s - {u};
      }
    }
    var u :| u in s;
    u
  }

  /** `_upsert_verdict` up to its commit: overwrite the one row there is, or add one. */
  function VerdictStored(db: Db, org: Uuid, newId: Uuid, row: Verdict): Answer {
    var existing := VerdictsFor(db, org, row.application, row.service);
    if |existing| > 1 then Refused
    else if existing == {} then InsertVerdict(db, Some(org), newId, row)
    else UpdateVerdict(db, Some(org), The(existing), row.(org := db.verdicts[The(existing)].org))
  }

  /** Score, retrieve, judge: the verdict row to store, unless a call raises. */
  function Assessed(w: World, ext: Externals, m: Message, resumeId: Uuid, data: ParsedData, requisition: Requisition,
                    calls: TaskCalls): (End, Option<Verdict>) {
    var score := ScoreResumeFit(data, Requirements(requisition));
    if Ask(calls.index.embed) != Returned then (Ask(calls.index.embed), None) else
    var (end, context) :=
      Context(w.index, ext, m.org, RESUME, resumeId, ext.embed([QueryText(requisition.title, score)]), calls.search);
    if end != Returned then (end, None)
    else if Ask(calls.judge) != Returned then (Ask(calls.judge), None)
    else
      var judged := ext.judge(ResumeScore(score), context, Task(requisition.title));
      (Returned, Some(Verdict(m.org, m.id, ResumeAnalysis, Some(resumeId), None, ResumeScore(score), judged.0, judged.1)))
  }

  /** Load application, resume and requisition, and assess them; `None` with a normal
      return means that there is nothing to assess. */
  function VerdictFor(w: World, ext: Externals, m: Message, calls: TaskCalls): (End, Option<Verdict>) {
    if Ask(calls.load) != Returned then (Ask(calls.load), None)
    else match VisibleApplication(w.db, m.org, m.id)
      case None => (Returned, None)
      case Some(app) =>
        var resume, requisition := VisibleResume(w.db, m.org, app.resume), VisibleRequisition(w.db, m.org, app.requisition);
        if resume.None? || requisition.None? || resume.value.parsedData.None?
           || !resume.value.parsedData.value.hasKeys then (Returned, None)
        else Assessed(w, ext, m, app.resume, resume.value.parsedData.value, requisition.value, calls)
  }

  /** `_upsert_verdict`, its commit included. */
  function VerdictUpserted(db: Db, org: Uuid, row: Verdict, calls: TaskCalls): (Db, End) {
    match VerdictStored(db, org, calls.newId, row)
    case Refused => (db, Raised)
    case Done(next) => Committed(db, next, calls.commit)
  }

  function VerdictSaved(w: World, org: Uuid, row: Verdict, calls: TaskCalls): (World, End) {
    var (db, end) := VerdictUpserted(w.db, org, row, calls);
    (w.(db := db), end)
  }

  function VerdictRun(w: World, ext: Externals, m: Message, calls: TaskCalls): (World, End) {
    var (end, row) := VerdictFor(w, ext, m, calls);
    if row.None? then (w, end) else VerdictSaved(w, m.org, row.value, calls)
  }

  // ----- delivery -----

  /** One attempt at a task. */
  function TaskRun(w: World, ext: Externals, m: Message, calls: TaskCalls): (World, End) {
    match m.kind
    case ParseResume => ParseRun(w, ext, m, calls)
    case EmbedResume => EmbedRun(w, ext, m, calls)
    case ResumeVerdict => VerdictRun(w, ext, m, calls)
  }

  /** The messages given up on after an attempt. */
  function SettledDropped(dropped: multiset<Message>, m: Message, end: End): multiset<Message> {
    if GivenUp(m, end) then dropped + multiset{m} else dropped
  }

  function Settled(w: World, m: Message, end: End, ack: Call): World {
    w.(queue := SettledQueue(w.queue, m, end, ack), dropped := SettledDropped(w.dropped, m, end))
  }

  function Delivered(w: World, ext: Externals, m: Message, calls: TaskCalls): World {
    if m !in w.queue then w else
      var (v, end) := TaskRun(w, ext, m, calls);
      Settled(v, m, end, calls.ack)
  }

  // ----- submit_resume -----

  datatype Submission = Submission(
    org: Uuid, requisition: Uuid, email: string, fullName: string, phone: Option<string>,
    filename: string, content: Bytes)

  /** How the calls of a submission end, and the ids it draws. */
  datatype SubmitCalls = SubmitCalls(
    find: Call, upload: Call, commit: Call, send: Call, candidate: Uuid, resume: Uuid, application: Uuid)

  function CandidatesFor(db: Db, org: Uuid, email: string): set<Uuid> {
    set c | c in db.candidates && Allows(Some(org), db.candidates[c].org) && Lower(db.candidates[c].email) == Lower(email)
  }

  /** `_get_or_create_candidate`: the rows after it, and the candidate. */
  function CandidateStored(db: Db, sub: Submission, newId: Uuid): (Answer, Uuid) {
    var existing := CandidatesFor(db, sub.org, sub.email);
    if |existing| > 1 then (Refused, newId)
    else if existing == {} then
      (InsertCandidate(db, Some(sub.org), newId, Candidate(sub.org, sub.email, sub.fullName, sub.phone)), newId)
    else (Done(db), The(existing))
  }

  function NewResume(sub: Submission, candidate: Uuid, key: string): Resume {
    Resume(sub.org, candidate, key, Uploaded, None, None, NotEmbedded, None)
  }

  /** The rows of the resume and the application, after the candidate's. */
  function SubmissionStored(db: Db, sub: Submission, candidate: Uuid, calls: SubmitCalls): Answer {
    var key := ObjectKey(sub.org, calls.resume, sub.filename);
    match InsertResume(db, Some(sub.org), calls.resume, NewResume(sub, candidate, key))
    case Refused => Refused
    case Done(mid) =>
      InsertApplication(mid, Some(sub.org), calls.application,
                        Application(sub.org, candidate, sub.requisition, calls.resume, Submitted))
  }

  /** The rows are committed, and the parse task is sent. */
  function SubmitSaved(w: World, sub: Submission, rows: Answer, calls: SubmitCalls): (World, End) {
    match rows
    case Refused => (w, Raised)
    case Done(db) =>
      var (saved, end) := Committed(w, w.(db := db), calls.commit);
      if end != Returned then (saved, end)
      else Sent(saved, Message(ParseResume, calls.resume, sub.org, 0), calls.send)
  }

  /** The object is written before any row is. */
  function FileUploaded(w: World, sub: Submission, calls: SubmitCalls): (World, End) {
    var (objects, end) :=
      Perform(w.objects, w.objects[ObjectKey(sub.org, calls.resume, sub.filename) := sub.content], calls.upload);
    (w.(objects := objects), end)
  }

  function SubmitRun(w: World, sub: Submission, calls: SubmitCalls): (World, End) {
    if Ask(calls.find) != Returned then (w, Ask(calls.find)) else
    var (found, candidate) := CandidateStored(w.db, sub, calls.candidate);
    if found.Refused? then (w, Raised) else
    var (v, end) := FileUploaded(w, sub, calls);
    if end != Returned then (v, end)
    else SubmitSaved(v, sub, SubmissionStored(found.db, sub, candidate, calls), calls)
  }

  // ----- runs -----

  /** A step of the whole system, always on behalf of one organization. Any message may be
      published, also one whose task id belongs to somebody else. Transcripts of any text are
      indexed in the same collections. */
  datatype Event =
    | Submit(sub: Submission, submitCalls: SubmitCalls)
    | Publish(message: Message)
    | Deliver(message: Message, calls: TaskCalls)
    | TearDown(org: Uuid, exists_: Call, delete: Call)
    | IndexTranscript(org: Uuid, transcript: Uuid, candidate: Uuid, text: string, index: EmbedCalls)

  function OrgOf(e: Event): Uuid {
    match e
    case Submit(sub, _) => sub.org
    case Publish(m) => m.org
    case Deliver(m, _) => m.org
    case TearDown(org, _, _) => org
    case IndexTranscript(org, _, _, _, _) => org
  }

  function Step(w: World, ext: Externals, e: Event): World {
    match e
    case Submit(sub, calls) => SubmitRun(w, sub, calls).0
    case Publish(m) => w.(queue := w.queue + multiset{m})
    case Deliver(m, calls) => Delivered(w, ext, m, calls)
    case TearDown(org, exists_, delete) => w.(index := TornDown(w.index, org, exists_, delete).0)
    case IndexTranscript(org, transcript, candidate, text, calls) =>
      w.(index := SourceEmbedded(w.index, ext, org, TRANSCRIPT, transcript, candidate, text, calls).0)
  }

  function Steps(w: World, ext: Externals, es: seq<Event>): World
    decreases |es|
  {
    if es == [] then w else Steps(Step(w, ext, es[0]), ext, es[1..])
  }
}
