/** The services and task bodies themselves, statement by statement over mutable stores,
    each proved to have the effect the pipeline's step functions give. */
module Worker {
  import opened Basics
  import opened Encodings
  import opened Tasks
  import opened ResumeFit
  import opened Schema
  import opened VectorStore
  import opened Externals
  import opened Embedding
  import opened Pipeline

  class Database {
    var committed: Db
    constructor (db: Db) ensures committed == db { committed := db; }
  }

  class ObjectStore {
    var objects: map<string, Bytes>
    constructor () ensures objects == map[] { objects := map[]; }

    method Upload(key: string, content: Bytes, call: Call) returns (end: End)
      modifies this
      ensures (objects, end) == Perform(old(objects), old(objects)[key := content], call)
    {
      var result := Perform(objects, objects[key := content], call);
      objects := result.0;
      end := result.1;
    }

    /** The raw bytes; a missing object raises. */
    method Download(key: string, call: Call) returns (end: End, content: Bytes)
      ensures end == if Ask(call) != Returned then Ask(call) else if key in objects then Returned else Raised
      ensures end == Returned ==> content == objects[key]
    {
      content := [];
      end := Ask(call);
      if end == Returned {
        if key in objects {
          content := objects[key];
        } else {
          end := Raised;
        }
      }
    }
  }

  class Broker {
    var queue: multiset<Message>
    var dropped: multiset<Message>

    constructor () ensures queue == dropped == multiset{} {
      queue, dropped := multiset{}, multiset{};
    }

    method SendTask(m: Message, call: Call) returns (end: End)
      modifies this
      ensures (queue, end) == Perform(old(queue), old(queue) + multiset{m}, call)
      ensures dropped == old(dropped)
    {
      var result := Perform(queue, queue + multiset{m}, call);
      queue := result.0;
      end := result.1;
    }

    /** Acknowledge late, retry a bounded number of times, keep what a lost worker held. */
    method Settle(m: Message, end: End, ack: Call)
      modifies this
      ensures queue == SettledQueue(old(queue), m, end, ack)
      ensures dropped == SettledDropped(old(dropped), m, end)
    {
      if end == Lost {
        return;
      }
      if ack == Works {
        queue := queue - multiset{m};
      }
      if end == Raised {
        if m.retries < MAX_RETRIES {
          queue := queue + multiset{Again(m)};
        } else {
          dropped := dropped + multiset{m};
        }
      }
    }
  }

  class Worker {
    const database: Database
    const store: Qdrant
    const objects: ObjectStore
    const broker: Broker
    const ext: Externals

    constructor (database: Database, store: Qdrant, objects: ObjectStore, broker: Broker, ext: Externals)
      ensures this.database == database && this.store == store && this.objects == objects
      ensures this.broker == broker && this.ext == ext
    {
      this.database, this.store, this.objects, this.broker, this.ext := database, store, objects, broker, ext;
    }

    ghost function Now(): World
      reads database, store, objects, broker
    {
      World(database.committed, store.index, objects.objects, broker.queue, broker.dropped)
    }

    method Commit(session: Db, call: Call) returns (end: End)
      modifies database
      ensures (database.committed, end) == Committed(old(database.committed), session, call)
    {
      if call == Works {
        database.committed := session;
        return Returned;
      }
      return Ask(call);
    }

    /** The body of the `try` in `parse_resume`. */
    method ParseFile(key: string, calls: TaskCalls) returns (work: Work<ParsedData>)
      ensures work == ParseWork(Now(), ext, key, calls)
    {
      var end, content := objects.Download(key, calls.download);
      if end != Returned {
        return if end == Lost then Died else Threw;
      }
      var text := ExtractText(ext, content, key);
      if text.None? {
        return Threw;
      }
      if Ask(calls.extract) != Returned {
        return if Ask(calls.extract) == Lost then Died else Threw;
      }
      work := Gave(ext.extractor(text.value));
    }

    method ParseResume(m: Message, calls: TaskCalls) returns (end: End)
      modifies database, broker
      ensures (Now(), end) == ParseRun(old(Now()), ext, m, calls)
    {
      if Ask(calls.load) != Returned {
        return Ask(calls.load);
      }
      var session := database.committed;
      var found := VisibleResume(session, m.org, m.id);
      if found.None? {
        return Returned;
      }
      var resume := found.value;
      resume := resume.(status := Parsing);
      session := session.(resumes := session.resumes[m.id := resume]);
      var work := ParseFile(resume.key, calls);
      if work.Died? {
        return Lost;
      }
      if work.Threw? {
        resume := resume.(status := ParseFailed);
        resume := resume.(parseError := Some(calls.error));
        session := session.(resumes := session.resumes[m.id := resume]);
        assert session.resumes == database.committed.resumes[m.id := resume];
        end := Commit(session, calls.commit);
        return;
      }
      resume := resume.(parsedData := Some(work.value));
      resume := resume.(parseError := None);
      resume := resume.(status := Parsed);
      session := session.(resumes := session.resumes[m.id := resume]);
      assert session.resumes == database.committed.resumes[m.id := resume];
      end := Commit(session, calls.commit);
      if end != Returned {
        return;
      }
      end := broker.SendTask(Message(TaskKind.EmbedResume, m.id, m.org, 0), calls.send);
    }

    /** The body of the `try` in `embed_resume`. */
    method EmbedFile(m: Message, resume: Resume, calls: TaskCalls) returns (work: Work<()>)
      modifies store
      ensures (store.index, work) == EmbedWork(old(Now()), ext, m, resume, calls)
    {
      var end, content := objects.Download(resume.key, calls.download);
      if end != Returned {
        return if end == Lost then Died else Threw;
      }
      var text := ExtractText(ext, content, resume.key);
      if text.None? {
        return Threw;
      }
      end := EmbedAndUpsert(store, ext, m.org, RESUME, m.id, resume.candidate, text.value, calls.index);
      work := match end case Returned => Gave(()) case Raised => Threw case Lost => Died;
    }

    method EmbedResume(m: Message, calls: TaskCalls) returns (end: End)
      modifies database, store
      ensures (Now(), end) == EmbedRun(old(Now()), ext, m, calls)
    {
      if Ask(calls.load) != Returned {
        return Ask(calls.load);
      }
      var session := database.committed;
      var found := VisibleResume(session, m.org, m.id);
      if found.None? {
        return Returned;
      }
      var resume := found.value;
      resume := resume.(embeddingStatus := Embedding);
      session := session.(resumes := session.resumes[m.id := resume]);
      assert EmbedWork(Now(), ext, m, resume, calls) == EmbedWork(Now(), ext, m, found.value, calls);
      var work := EmbedFile(m, resume, calls);
      if work.Died? {
        return Lost;
      }
      if work.Threw? {
        resume := resume.(embeddingStatus := EmbedFailed);
        resume := resume.(embeddingError := Some(calls.error));
      } else {
        resume := resume.(embeddingStatus := Embedded);
        resume := resume.(embeddingError := None);
      }
      session := session.(resumes := session.resumes[m.id := resume]);
      assert session.resumes == database.committed.resumes[m.id := resume];
      end := Commit(session, calls.commit);
    }

    /** The statement's effect on the session, or the exception it raises. */
    static method Flush(session: Db, answer: Answer) returns (ok: bool, next: Db)
      ensures ok <==> answer.Done?
      ensures next == if answer.Done? then answer.db else session
    {
      match answer {
        case Done(db) => return true, db;
        case Refused => return false, session;
      }
    }

    static method GetOrCreateCandidate(session: Db, sub: Submission, newId: Uuid)
      returns (ok: bool, next: Db, candidate: Uuid)
      ensures ok <==> CandidateStored(session, sub, newId).0.Done?
      ensures ok ==> (Done(next), candidate) == CandidateStored(session, sub, newId)
    {
      var existing := CandidatesFor(session, sub.org, sub.email);
      if |existing| > 1 {
        return false, session, newId;
      }
      if |existing| == 1 {
        return true, session, The(existing);
      }
      candidate := newId;
      ok, next := Flush(session, InsertCandidate(session, Some(sub.org), newId,
                                                 Candidate(sub.org, sub.email, sub.fullName, sub.phone)));
    }

    /** The two inserts, each flushed. */
    static method AddRows(session: Db, sub: Submission, candidate: Uuid, objectKey: string, calls: SubmitCalls)
      returns (ok: bool, next: Db)
      requires objectKey == ObjectKey(sub.org, calls.resume, sub.filename)
      ensures ok <==> SubmissionStored(session, sub, candidate, calls).Done?
      ensures ok ==> Done(next) == SubmissionStored(session, sub, candidate, calls)
    {
      ok, next := Flush(session, InsertResume(session, Some(sub.org), calls.resume, NewResume(sub, candidate, objectKey)));
      if !ok {
        return;
      }
      ok, next := Flush(next, InsertApplication(next, Some(sub.org), calls.application,
                                Application(sub.org, candidate, sub.requisition, calls.resume, Submitted)));
    }

    /** Commit the rows, then send the parse task. */
    method SaveSubmission(session: Db, sub: Submission, calls: SubmitCalls) returns (end: End)
      modifies database, broker
      ensures (Now(), end) == SubmitSaved(old(Now()), sub, Done(session), calls)
    {
      end := Commit(session, calls.commit);
      if end != Returned {
        return;
      }
      end := broker.SendTask(Message(TaskKind.ParseResume, calls.resume, sub.org, 0), calls.send);
    }

    method SubmitResume(sub: Submission, calls: SubmitCalls) returns (end: End)
      modifies database, objects, broker
      ensures (Now(), end) == SubmitRun(old(Now()), sub, calls)
    {
      var session := database.committed;
      if Ask(calls.find) != Returned {
        return Ask(calls.find);
      }
      var ok, candidate;
      ok, session, candidate := GetOrCreateCandidate(session, sub, calls.candidate);
      if !ok {
        return Raised;
      }
      var objectKey := ObjectKey(sub.org, calls.resume, sub.filename);
      end := objects.Upload(objectKey, sub.content, calls.upload);
      if end != Returned {
        return;
      }
      ok, session := AddRows(session, sub, candidate, objectKey, calls);
      if !ok {
        return Raised;
      }
      end := SaveSubmission(session, sub, calls);
    }

    /** Overwrite the verdict of this application and service in place, or add it. */
    method UpsertVerdict(session: Db, org: Uuid, newId: Uuid, row: Verdict, commit: Call) returns (end: End)
      requires session == database.committed && row.org == org
      modifies database
      ensures
        var stored := VerdictStored(session, org, newId, row);
        if stored.Refused? then end == Raised && database.committed == session
        else (database.committed, end) == Committed(session, stored.db, commit)
    {
      var existing := VerdictsFor(session, org, row.application, row.service);
      if |existing| > 1 {
        return Raised;
      }
      var ok, next;
      if |existing| == 0 {
        ok, next := Flush(session, InsertVerdict(session, Some(org), newId, row));
      } else {
        var id := The(existing);
        var verdict := session.verdicts[id];
        verdict := verdict.(resume := row.resume, interview := row.interview);
        verdict := verdict.(score := row.score, verdictLabel := row.verdictLabel, narrative := row.narrative);
        assert verdict == row.(org := session.verdicts[id].org);
        ok, next := Flush(session, UpdateVerdict(session, Some(org), id, verdict));
      }
      if !ok {
        return Raised;
      }
      end := Commit(next, commit);
    }

    static method BuildQuery(title: string, score: Score) returns (text: string)
      ensures text == QueryText(title, score)
    {
      text := title;
      var requiredSkills := score.matched + score.missing;
      if requiredSkills != [] {
        text := title + ". Required skills: " + JoinWith(", ", requiredSkills);
      }
    }

    method RetrieveContext(org: Uuid, sourceType: string, sourceId: Uuid, queryVectors: seq<Vector>, call: Call)
      returns (end: End, contextChunks: seq<string>)
      ensures (end, contextChunks) == Context(store.index, ext, org, sourceType, sourceId, queryVectors, call)
    {
      end, contextChunks := Returned, [];
      if queryVectors != [] {
        var eligible;
        end, eligible := store.Search(org, Some(sourceType), Some(sourceId), call);
        if end == Returned {
          contextChunks := Texts(ext.rank(queryVectors[0], eligible));
        }
      }
    }

    /** The deterministic score first, then the retrieved context, then the Judge. */
    method Assess(m: Message, resumeId: Uuid, data: ParsedData, requisition: Requisition, calls: TaskCalls)
      returns (end: End, row: Option<Verdict>)
      ensures (end, row) == Assessed(Now(), ext, m, resumeId, data, requisition, calls)
    {
      var score := ScoreResumeFit(data, Requirements(requisition));
      var queryText := BuildQuery(requisition.title, score);
      if Ask(calls.index.embed) != Returned {
        return Ask(calls.index.embed), None;
      }
      var queryVectors := ext.embed([queryText]);
      var contextChunks;
      end, contextChunks := RetrieveContext(m.org, RESUME, resumeId, queryVectors, calls.search);
      if end != Returned {
        return end, None;
      }
      if Ask(calls.judge) != Returned {
        return Ask(calls.judge), None;
      }
      var judged := ext.judge(ResumeScore(score), contextChunks, Task(requisition.title));
      row := Some(Verdict(m.org, m.id, ResumeAnalysis, Some(resumeId), None, ResumeScore(score), judged.0, judged.1));
    }

    method GenerateResumeVerdict(m: Message, calls: TaskCalls) returns (end: End)
      modifies database
      ensures (Now(), end) == VerdictRun(old(Now()), ext, m, calls)
    {
      if Ask(calls.load) != Returned {
        return Ask(calls.load);
      }
      var session := database.committed;
      var application := VisibleApplication(session, m.org, m.id);
      if application.None? {
        return Returned;
      }
      var resume := VisibleResume(session, m.org, application.value.resume);
      var requisition := VisibleRequisition(session, m.org, application.value.requisition);
      if resume.None? || requisition.None? || resume.value.parsedData.None? || !resume.value.parsedData.value.hasKeys {
        return Returned;
      }
      var row;
      end, row := Assess(m, application.value.resume, resume.value.parsedData.value, requisition.value, calls);
      assert (end, row) == VerdictFor(Now(), ext, m, calls);
      if row.None? {
        return;
      }
      end := UpsertVerdict(session, m.org, calls.newId, row.value, calls.commit);
    }

    /** One delivery: run its task, then acknowledge, retry or give up. */
    method Deliver(m: Message, calls: TaskCalls)
      modifies database, store, broker
      ensures Now() == Delivered(old(Now()), ext, m, calls)
    {
      if m !in broker.queue {
        return;
      }
      var end;
      match m.kind {
        case ParseResume => end := ParseResume(m, calls);
        case EmbedResume => end := EmbedResume(m, calls);
        case ResumeVerdict => end := GenerateResumeVerdict(m, calls);
      }
      broker.Settle(m, end, calls.ack);
    }
  }
}
