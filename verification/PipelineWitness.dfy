/** A run from empty stores that ends with a committed `embedded` over an empty index, and
    no message left to repair it. */
module PipelineWitness {
  import opened Basics
  import opened Text
  import opened Encodings
  import opened Tasks
  import opened Chunking
  import opened ResumeFit
  import opened Schema
  import opened VectorStore
  import opened Externals
  import opened Embedding
  import opened Pipeline
  import opened PipelineFacts
  import opened PipelineInvariants
  import opened PipelineIndex
  import NonInterference

  // ----- a message used up -----

  /** Attempts that delete the old points, cannot write the new ones, and then cannot
      commit the failure either. */
  predicate UpsertAndCommitFail(calls: TaskCalls) {
    && calls.load == calls.download == calls.index.embed == calls.index.delete == calls.ack == Works
    && calls.index.upsert == calls.commit == Raises
  }

  /** The message and its retries, delivered one after the other until it is given up. */
  function UsedUp(m: Message, calls: TaskCalls): seq<Event>
    decreases MAX_RETRIES - m.retries
  {
    if m.retries >= MAX_RETRIES then [Deliver(m, calls)]
    else [Deliver(m, calls)] + UsedUp(Again(m), calls)
  }

  /** The rows are as before, but the collection has nothing of this resume any more. */
  ghost predicate Bare(w: World, v: World, m: Message) {
    && v.db == w.db && v.objects == w.objects && CollectionName(m.org) in v.index
    && PointsOf(v.index[CollectionName(m.org)], RESUME, m.id) == map[]
  }

  lemma {:induction false} FailedRun(w: World, ext: Externals, m: Message, calls: TaskCalls)
    requires Indexable(w, ext, m) && UpsertAndCommitFail(calls)
    ensures AttemptWrites(w, ext, m, calls) == NowEmpty
    ensures
      var (v, end) := EmbedRun(w, ext, m, calls);
      end == Raised && v == w.(index := v.index)
  {
    IndexableWrites(w, ext, m, calls);
    EmptyingWork(w, ext, m, calls);
    var (ix, work) := EmbedWork(w, ext, m, w.db.resumes[m.id], calls);
    assert EmbedSaved(w.(index := ix), m, w.db.resumes[m.id], Threw, calls) == (w.(index := ix), Raised);
  }

  lemma {:induction false} FailedAttempt(w: World, ext: Externals, m: Message, calls: TaskCalls)
    requires Indexable(w, ext, m) && m in w.queue && UpsertAndCommitFail(calls)
    ensures Bare(w, Delivered(w, ext, m, calls), m)
    ensures Delivered(w, ext, m, calls).queue == SettledQueue(w.queue, m, Raised, Works)
  {
    FailedRun(w, ext, m, calls);
    EmbedExactly(w, ext, m, calls);
    OwnFrame(w, ext, m, calls);
  }

  lemma {:induction false} StillIndexable(w: World, v: World, ext: Externals, m: Message, again: Message)
    requires Indexable(w, ext, m) && Bare(w, v, m) && again == m.(retries := again.retries)
    ensures Indexable(v, ext, again)
    ensures forall u :: Bare(v, u, again) ==> Bare(w, u, m)
  {
  }

  lemma {:induction false} FirstAttempt(w: World, ext: Externals, m: Message, calls: TaskCalls, es: seq<Event>)
    returns (v: World)
    requires Indexable(w, ext, m) && m in w.queue && UpsertAndCommitFail(calls)
    requires es != [] && es[0] == Deliver(m, calls)
    ensures Bare(w, v, m) && v.queue == SettledQueue(w.queue, m, Raised, Works)
    ensures Steps(w, ext, es) == Steps(v, ext, es[1..])
  {
    FailedAttempt(w, ext, m, calls);
    v := Step(w, ext, es[0]);
  }

  /** What follows an attempt: its retry, if any is left. */
  function Later(m: Message, calls: TaskCalls): seq<Event> {
    if m.retries < MAX_RETRIES then UsedUp(Again(m), calls) else []
  }

  lemma {:induction false} UsedUpParts(m: Message, calls: TaskCalls)
    ensures UsedUp(m, calls) != [] && UsedUp(m, calls)[0] == Deliver(m, calls)
    ensures UsedUp(m, calls)[1..] == Later(m, calls)
  {
  }

  lemma {:induction false} AttemptsBareTheIndex(w: World, ext: Externals, m: Message, calls: TaskCalls, es: seq<Event>)
    returns (v: World)
    requires Indexable(w, ext, m) && m in w.queue && UpsertAndCommitFail(calls) && m.retries <= MAX_RETRIES
    requires es == UsedUp(m, calls)
    ensures v == Steps(w, ext, es)
    ensures Bare(w, v, m) && v.queue == w.queue - multiset{m}
    decreases MAX_RETRIES - m.retries, 1
  {
    UsedUpParts(m, calls);
    v := FirstAttempt(w, ext, m, calls, es);
    v := LaterAttempts(w, v, ext, m, calls, es[1..]);
  }

  lemma {:induction false} LaterAttempts(w: World, u: World, ext: Externals, m: Message, calls: TaskCalls,
                                         rest: seq<Event>)
    returns (v: World)
    requires Indexable(w, ext, m) && m in w.queue && UpsertAndCommitFail(calls) && m.retries <= MAX_RETRIES
    requires Bare(w, u, m) && u.queue == SettledQueue(w.queue, m, Raised, Works)
    requires rest == Later(m, calls)
    ensures v == Steps(u, ext, rest)
    ensures Bare(w, v, m) && v.queue == w.queue - multiset{m}
    decreases MAX_RETRIES - m.retries, 0
  {
    v := u;
    if m.retries < MAX_RETRIES {
      var again := Again(m);
      StillIndexable(w, u, ext, m, again);
      v := AttemptsBareTheIndex(u, ext, again, calls, rest);
    }
  }

  /** Four such attempts in a row leave a committed `embedded` status over an empty index,
      and no message that would ever repair it. */
  lemma {:induction false} RetriesCanLoseTheIndex(w: World, ext: Externals, m: Message, calls: TaskCalls)
    requires Indexable(w, ext, m) && m in w.queue && UpsertAndCommitFail(calls) && m.retries == 0
    requires w.db.resumes[m.id].embeddingStatus == Embedded
    ensures |UsedUp(m, calls)| == 4
    ensures
      var v := Steps(w, ext, UsedUp(m, calls));
      && v.queue == w.queue - multiset{m}
      && v.db == w.db && Broken(ext, v, m.id)
  {
    var v := AttemptsBareTheIndex(w, ext, m, calls, UsedUp(m, calls));
    assert |UsedUp(Again(Again(Again(m))), calls)| == 1;
    assert |UsedUp(Again(Again(m)), calls)| == 2;
    assert |UsedUp(Again(m), calls)| == 3;
  }

  // ----- how it comes about -----

  /** All calls of a task work, but the acknowledgement may be lost. */
  function Smooth(newId: Uuid, ack: Call): TaskCalls {
    TaskCalls(Works, Works, Works, EmbedCalls(Works, Works, Works), Works, Works, Works, Works, ack, "", newId)
  }

  function Fatal(newId: Uuid): TaskCalls {
    TaskCalls(Works, Works, Works, EmbedCalls(Works, Works, Raises), Works, Works, Raises, Works, Works, "", newId)
  }

  function AllWork(candidate: Uuid, resume: Uuid, application: Uuid): SubmitCalls {
    SubmitCalls(Works, Works, Works, Works, candidate, resume, application)
  }

  function Entered(db: Db, sub: Submission, calls: SubmitCalls): Db {
    NonInterference.WithSubmission(
      db.(candidates := db.candidates[calls.candidate := Candidate(sub.org, sub.email, sub.fullName, sub.phone)]),
      sub, calls.candidate, calls)
  }

  /** The first submission, when everything up to the commit works. */
  lemma {:induction false} FirstSubmission(start: World, sub: Submission, calls: SubmitCalls)
    requires Start(start) && VisibleRequisition(start.db, sub.org, sub.requisition).Some?
    requires calls == SubmitCalls(Works, Works, Works, calls.send, calls.candidate, calls.resume, calls.application)
    ensures SubmitRun(start, sub, calls)
         == Sent(start.(db := Entered(start.db, sub, calls), objects := start.objects[KeyOf(sub, calls) := sub.content]),
                 Message(ParseResume, calls.resume, sub.org, 0), calls.send)
  {
    var found := start.db.(candidates :=
      start.db.candidates[calls.candidate := Candidate(sub.org, sub.email, sub.fullName, sub.phone)]);
    NonInterference.NewCandidate(start.db, sub, calls.candidate);
    assert NonInterference.Acceptable(found, NonInterference.NewApplication(sub, calls.candidate, calls));
    NonInterference.StoredIs(found, sub, calls.candidate, calls);
  }

  lemma {:induction false} FirstParse(w: World, ext: Externals, m: Message, newId: Uuid)
    requires m.kind == ParseResume && w.queue == multiset{m} && VisibleResume(w.db, m.org, m.id).Some?
    requires FileText(ext, w.objects, w.db.resumes[m.id].key).Some?
    ensures
      var row := w.db.resumes[m.id];
      var data := ext.extractor(FileText(ext, w.objects, row.key).value);
      Delivered(w, ext, m, Smooth(newId, Works))
      == WithResume(w, m.id, GoodParse(row, data)).(queue := multiset{EmbedMessage(m)})
  {
    var row := w.db.resumes[m.id];
    var data := ext.extractor(FileText(ext, w.objects, row.key).value);
    assert ParseWork(w, ext, row.key, Smooth(newId, Works)) == Gave(data);
    assert multiset{m} + multiset{EmbedMessage(m)} - multiset{m} == multiset{EmbedMessage(m)};
  }

  lemma {:induction false} FirstWork(w: World, ext: Externals, m: Message, calls: TaskCalls)
    requires Indexable(w, ext, m) && calls == Smooth(calls.newId, calls.ack)
    ensures EmbedWork(w, ext, m, w.db.resumes[m.id], calls).1 == Gave(())
  {
    var row := w.db.resumes[m.id];
    WorkReaches(w, ext, m, row, calls);
    EmbeddingExactly(w.index, ext, m.org, RESUME, m.id, row.candidate, FileText(ext, w.objects, row.key).value, calls.index);
  }

  lemma {:induction false} FirstRun(w: World, ext: Externals, m: Message, calls: TaskCalls)
    requires Indexable(w, ext, m) && calls == Smooth(calls.newId, Raises)
    ensures
      var (v, end) := EmbedRun(w, ext, m, calls);
      v == WithResume(w, m.id, GoodEmbed(w.db.resumes[m.id])).(index := v.index) && end == Returned
  {
    var row := w.db.resumes[m.id];
    FirstWork(w, ext, m, calls);
    var ix := EmbedWork(w, ext, m, row, calls).0;
    assert EmbedSaved(w.(index := ix), m, row, Gave(()), calls)
        == (WithResume(w.(index := ix), m.id, GoodEmbed(row)), Returned);
  }

  /** The attempt succeeds, but is going to be delivered again. */
  lemma {:induction false} FirstEmbed(w: World, ext: Externals, m: Message, newId: Uuid)
    requires Indexable(w, ext, m) && w.queue == multiset{m}
    ensures
      var v := Delivered(w, ext, m, Smooth(newId, Raises));
      && v == WithResume(w, m.id, GoodEmbed(w.db.resumes[m.id])).(index := v.index)
      && Indexable(v, ext, m)
  {
    var calls := Smooth(newId, Raises);
    FirstRun(w, ext, m, calls);
    OwnFrame(w, ext, m, calls);
  }

  // ----- the whole run -----

  lemma {:induction false} OneEventMore(w: World, ext: Externals, e: Event, v: World, es: seq<Event>)
    requires v == Step(w, ext, e) && FreshIds(w, e) && FreshRun(v, ext, es)
    ensures Steps(w, ext, [e] + es) == Steps(v, ext, es) && FreshRun(w, ext, [e] + es)
  {
    assert ([e] + es)[1..] == es;
  }

  lemma {:induction false} UsedUpIsFresh(w: World, ext: Externals, m: Message, calls: TaskCalls, es: seq<Event>)
    requires Indexable(w, ext, m) && m in w.queue && UpsertAndCommitFail(calls) && calls.newId !in w.db.verdicts
    requires m.retries <= MAX_RETRIES && es == UsedUp(m, calls)
    ensures FreshRun(w, ext, es)
    decreases MAX_RETRIES - m.retries, 1
  {
    UsedUpParts(m, calls);
    FailedAttempt(w, ext, m, calls);
    var v := Delivered(w, ext, m, calls);
    assert v == Step(w, ext, es[0]);
    LaterIsFresh(w, v, ext, m, calls, es[1..]);
  }

  lemma {:induction false} LaterIsFresh(w: World, v: World, ext: Externals, m: Message, calls: TaskCalls,
                                        rest: seq<Event>)
    requires Indexable(w, ext, m) && m in w.queue && UpsertAndCommitFail(calls) && calls.newId !in w.db.verdicts
    requires m.retries <= MAX_RETRIES && rest == Later(m, calls)
    requires Bare(w, v, m) && v.queue == SettledQueue(w.queue, m, Raised, Works)
    ensures FreshRun(v, ext, rest)
    decreases MAX_RETRIES - m.retries, 0
  {
    if m.retries < MAX_RETRIES {
      StillIndexable(w, v, ext, m, Again(m));
      UsedUpIsFresh(v, ext, Again(m), calls, rest);
    }
  }

  lemma {:induction false} LastEvents(once: World, ext: Externals, m: Message, newId: Uuid, es: seq<Event>)
    requires Indexable(once, ext, m) && once.queue == multiset{m} && m.retries == 0 && once.db.verdicts == map[]
    requires once.db.resumes[m.id].embeddingStatus == Embedded && es == UsedUp(m, Fatal(newId))
    ensures FreshRun(once, ext, es) && |es| == 4
    ensures
      var v := Steps(once, ext, es);
      v.queue == multiset{} && Broken(ext, v, m.id) && v.db == once.db
  {
    RetriesCanLoseTheIndex(once, ext, m, Fatal(newId));
    UsedUpIsFresh(once, ext, m, Fatal(newId), es);
  }

  lemma {:induction false} LastPart(w: World, ext: Externals, m: Message, newId: Uuid) returns (es: seq<Event>,
                                    v: World)
    requires Indexable(w, ext, m) && w.queue == multiset{m} && m.retries == 0 && w.db.verdicts == map[]
    ensures FreshRun(w, ext, es) && v == Steps(w, ext, es) && |es| == 5
    ensures v.queue == multiset{} && Broken(ext, v, m.id) && v.db.resumes.Keys == w.db.resumes.Keys
  {
    FirstEmbed(w, ext, m, newId);
    var once := Delivered(w, ext, m, Smooth(newId, Raises));
    var rest := UsedUp(m, Fatal(newId));
    LastEvents(once, ext, m, newId, rest);
    OneEventMore(w, ext, Deliver(m, Smooth(newId, Raises)), once, rest);
    es, v := [Deliver(m, Smooth(newId, Raises))] + rest, Steps(once, ext, rest);
  }

  /** Any first submission whose file has chunks can end like this. */
  lemma {:induction false} SubmissionsCanBreak(start: World, ext: Externals, sub: Submission, calls: SubmitCalls,
                                               newId: Uuid)
    returns (es: seq<Event>, w: World)
    requires Start(start) && VisibleRequisition(start.db, sub.org, sub.requisition).Some?
    requires calls == AllWork(calls.candidate, calls.resume, calls.application) && CollectionName(sub.org) in start.index
    requires Embeddable(ext, map[KeyOf(sub, calls) := sub.content], KeyOf(sub, calls))
    requires !Chunkless(ext, map[KeyOf(sub, calls) := sub.content], KeyOf(sub, calls))
    ensures FreshRun(start, ext, es) && w == Steps(start, ext, es) && |es| == 7
    ensures w.queue == multiset{} && Broken(ext, w, calls.resume)
  {
    var p := Message(ParseResume, calls.resume, sub.org, 0);
    FirstSubmission(start, sub, calls);
    var entered := SubmitRun(start, sub, calls).0;
    assert entered.db.resumes[calls.resume] == NewResume(sub, calls.candidate, KeyOf(sub, calls));
    FirstParse(entered, ext, p, newId);
    var parsed := Delivered(entered, ext, p, Smooth(newId, Works));
    var rest;
    rest, w := LastPart(parsed, ext, EmbedMessage(p), newId);
    OneEventMore(entered, ext, Deliver(p, Smooth(newId, Works)), parsed, rest);
    rest := [Deliver(p, Smooth(newId, Works))] + rest;
    OneEventMore(start, ext, Submit(sub, calls), entered, rest);
    es := [Submit(sub, calls)] + rest;
  }

  // ----- one concrete start -----

  /** One requisition, one empty collection, nothing else. */
  function Beginning(org: Uuid, requisition: Uuid): World {
    World(Db(map[], map[requisition := Requisition(org, "Engineer", None)], map[], map[], map[], map[]),
          map[CollectionName(org) := map[]], map[], multiset{}, multiset{})
  }

  /** Services that read one word from every file. */
  function OneWord(): Externals {
    Externals((b: Bytes) => None, (b: Bytes) => "word", (t: string) => ParsedData(None, None, false),
              (ts: seq<string>) => seq(|ts|, i => []), (v: Vector, c: Collection) => [],
              (s: VerdictScore, cs: seq<string>, t: string) => (Review, ""))
  }

  lemma {:induction false} OneWordIsOneChunk()
    ensures |Chunks("word")| == 1
  {
    assert Join(["word"]) == "word";
    assert AllWords(["word"]);
    SplitJoin(["word"]);
    ChunkCount("word", DEFAULT_CHUNK_SIZE, DEFAULT_CHUNK_OVERLAP);
  }

  lemma {:induction false} MarkdownSuffix()
    ensures Suffix("cv.md") == "md"
  {
    assert "cv.md"[..4] == "cv.m" && "cv.m"[..3] == "cv.";
    assert AfterLastDot("cv.") == "";
    assert AfterLastDot("cv.m") == "m";
    assert AfterLastDot("cv.md") == "md";
  }

  /** A concrete submission that fails and leaves its rows behind: the broker refuses the
      message, and nothing will ever pick the resume up. */
  lemma {:induction false} FailureLeavesRows(org: Uuid, requisition: Uuid, candidate: Uuid, resume: Uuid,
                                             application: Uuid)
    ensures
      var start := Beginning(org, requisition);
      var sub := Submission(org, requisition, "a@b", "A", None, "cv.md", []);
      var calls := SubmitCalls(Works, Works, Works, Raises, candidate, resume, application);
      var (w, end) := SubmitRun(start, sub, calls);
      && Start(start) && end == Raised
      && resume in w.db.resumes && application in w.db.applications && candidate in w.db.candidates
      && w.queue == multiset{}
  {
    var sub := Submission(org, requisition, "a@b", "A", None, "cv.md", []);
    var calls := SubmitCalls(Works, Works, Works, Raises, candidate, resume, application);
    FirstSubmission(Beginning(org, requisition), sub, calls);
  }

  /** The state is reachable: a concrete start, and a run of seven events from it. */
  lemma {:induction false} BrokenStateIsReachable(org: Uuid, requisition: Uuid, candidate: Uuid, resume: Uuid,
                                                  application: Uuid)
    returns (es: seq<Event>, w: World)
    ensures Start(Beginning(org, requisition)) && FreshRun(Beginning(org, requisition), OneWord(), es)
    ensures w == Steps(Beginning(org, requisition), OneWord(), es) && |es| == 7
    ensures w.queue == multiset{} && Broken(OneWord(), w, resume)
  {
    var sub := Submission(org, requisition, "a@b", "A", None, "cv.md", []);
    var calls := AllWork(candidate, resume, application);
    var key := KeyOf(sub, calls);
    SuffixOfObjectKey(org, resume, "cv.md");
    MarkdownSuffix();
    OneWordIsOneChunk();
    assert FileText(OneWord(), map[key := sub.content], key) == Some("word");
    es, w := SubmissionsCanBreak(Beginning(org, requisition), OneWord(), sub, calls, resume);
  }
}
