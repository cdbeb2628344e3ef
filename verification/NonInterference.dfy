/** Tenant isolation: what one organization can see never depends on the others. Two states
    that look the same to an organization still do after the same step of its own, and a
    step of anybody else changes nothing it can see. */
module NonInterference {
  import opened Basics
  import opened Text
  import opened Encodings
  import opened Tasks
  import opened ResumeFit
  import opened Schema
  import opened SameOrganization
  import opened VectorStore
  import opened Externals
  import opened Embedding
  import opened Pipeline
  import opened PipelineFacts
  import opened PipelineVerdicts
  import opened PipelineInvariants

  // ----- what an organization sees -----

  function VisibleCandidate(db: Db, org: Uuid, id: Uuid): Option<Candidate> {
    if id in db.candidates && Allows(Some(org), db.candidates[id].org) then Some(db.candidates[id]) else None
  }

  function VisibleVerdict(db: Db, org: Uuid, id: Uuid): Option<Verdict> {
    if id in db.verdicts && Allows(Some(org), db.verdicts[id].org) then Some(db.verdicts[id]) else None
  }

  /** The same rows, table by table. */
  ghost predicate SameRows(org: Uuid, db: Db, eb: Db) {
    && (forall id :: VisibleCandidate(db, org, id) == VisibleCandidate(eb, org, id))
    && (forall id :: VisibleRequisition(db, org, id) == VisibleRequisition(eb, org, id))
    && (forall id :: VisibleResume(db, org, id) == VisibleResume(eb, org, id))
    && (forall id :: VisibleApplication(db, org, id) == VisibleApplication(eb, org, id))
    && (forall id :: VisibleVerdict(db, org, id) == VisibleVerdict(eb, org, id))
  }

  /** The same collection, or none. */
  ghost predicate SameCollection(org: Uuid, ix: Index, jx: Index) {
    var n := CollectionName(org);
    (n in ix <==> n in jx) && (n in ix ==> ix[n] == jx[n])
  }

  /** The same objects under the organization's prefix. */
  ghost predicate SameObjects(org: Uuid, objects: map<string, Bytes>, others: map<string, Bytes>) {
    forall key :: OrgPrefix(org) <= key ==>
      (key in objects <==> key in others) && (key in objects ==> objects[key] == others[key])
  }

  ghost predicate SameMessages(org: Uuid, q: multiset<Message>, r: multiset<Message>) {
    forall m: Message :: m.org == org ==> q[m] == r[m]
  }

  ghost predicate SameView(org: Uuid, w: World, v: World) {
    && SameRows(org, w.db, v.db) && SameCollection(org, w.index, v.index) && SameObjects(org, w.objects, v.objects)
    && SameMessages(org, w.queue, v.queue) && SameMessages(org, w.dropped, v.dropped)
  }

  lemma SameViewJoins(org: Uuid, u: World, v: World, w: World)
    requires SameView(org, u, v) && SameView(org, v, w)
    ensures SameView(org, u, w)
  {
  }

  // ----- settling and sending -----

  lemma {:induction false} SettledQueueSame(org: Uuid, q: multiset<Message>, r: multiset<Message>, m: Message, end: End,
                                            ack: Call)
    requires SameMessages(org, q, r)
    ensures SameMessages(org, SettledQueue(q, m, end, ack), SettledQueue(r, m, end, ack))
  {
  }

  lemma {:induction false} SettledDroppedSame(org: Uuid, q: multiset<Message>, r: multiset<Message>, m: Message, end: End)
    requires SameMessages(org, q, r)
    ensures SameMessages(org, SettledDropped(q, m, end), SettledDropped(r, m, end))
  {
  }

  lemma {:induction false} SettledSame(org: Uuid, w: World, v: World, m: Message, end: End, ack: Call)
    requires SameView(org, w, v)
    ensures SameView(org, Pipeline.Settled(w, m, end, ack), Pipeline.Settled(v, m, end, ack))
  {
    SettledQueueSame(org, w.queue, v.queue, m, end, ack);
    SettledDroppedSame(org, w.dropped, v.dropped, m, end);
  }

  lemma {:induction false} SettledUnseen(org: Uuid, w: World, m: Message, end: End, ack: Call)
    requires m.org != org
    ensures SameView(org, w, Pipeline.Settled(w, m, end, ack))
  {
  }

  // ----- the organization's own tasks -----

  /** Its files read the same. */
  lemma {:induction false} FileSame(ext: Externals, org: Uuid, w: World, v: World, id: Uuid)
    requires SameView(org, w, v) && id in w.db.resumes && w.db.resumes[id].org == org
    requires RowOk(ext, w.objects, id, w.db.resumes[id])
    ensures FileText(ext, w.objects, w.db.resumes[id].key) == FileText(ext, v.objects, w.db.resumes[id].key)
  {
    assert OrgPrefix(org) <= KeyPrefix(org, id);
  }

  lemma {:induction false} OwnFileSame(ext: Externals, w: World, v: World, m: Message)
    requires ResumesOk(w, ext) && SameView(m.org, w, v) && VisibleResume(w.db, m.org, m.id).Some?
    ensures
      var key := VisibleResume(w.db, m.org, m.id).value.key;
      FileText(ext, w.objects, key) == FileText(ext, v.objects, key)
  {
    assert RowOk(ext, w.objects, m.id, w.db.resumes[m.id]);
    FileSame(ext, m.org, w, v, m.id);
  }

  lemma {:induction false} RowSame(org: Uuid, w: World, v: World, id: Uuid, row: Resume)
    requires SameView(org, w, v) && VisibleResume(w.db, org, id).Some?
    ensures SameView(org, WithResume(w, id, row), WithResume(v, id, row))
  {
    var x, y := WithResume(w, id, row), WithResume(v, id, row);
    forall i
      ensures VisibleResume(x.db, org, i) == VisibleResume(y.db, org, i)
    {
      assert VisibleResume(w.db, org, i) == VisibleResume(v.db, org, i);
    }
    assert forall i :: VisibleCandidate(x.db, org, i) == VisibleCandidate(w.db, org, i)
                    && VisibleCandidate(y.db, org, i) == VisibleCandidate(v.db, org, i);
    assert forall i :: VisibleRequisition(x.db, org, i) == VisibleRequisition(w.db, org, i)
                    && VisibleRequisition(y.db, org, i) == VisibleRequisition(v.db, org, i);
    assert forall i :: VisibleApplication(x.db, org, i) == VisibleApplication(w.db, org, i)
                    && VisibleApplication(y.db, org, i) == VisibleApplication(v.db, org, i);
    assert forall i :: VisibleVerdict(x.db, org, i) == VisibleVerdict(w.db, org, i)
                    && VisibleVerdict(y.db, org, i) == VisibleVerdict(v.db, org, i);
  }

  lemma {:induction false} CommittedSame(org: Uuid, w: World, x: World, v: World, y: World, call: Call)
    requires SameView(org, w, v) && SameView(org, x, y)
    ensures SameView(org, Committed(w, x, call).0, Committed(v, y, call).0)
    ensures Committed(w, x, call).1 == Committed(v, y, call).1
  {
  }

  lemma {:induction false} SentSame(org: Uuid, w: World, v: World, m: Message, call: Call)
    requires SameView(org, w, v)
    ensures SameView(org, Sent(w, m, call).0, Sent(v, m, call).0) && Sent(w, m, call).1 == Sent(v, m, call).1
  {
  }

  lemma {:induction false} ParseSavedSame(w: World, v: World, m: Message, row: Resume, work: Work<ParsedData>,
                                          calls: TaskCalls)
    requires SameView(m.org, w, v) && VisibleResume(w.db, m.org, m.id).Some?
    ensures SameView(m.org, ParseSaved(w, m, row, work, calls).0, ParseSaved(v, m, row, work, calls).0)
    ensures ParseSaved(w, m, row, work, calls).1 == ParseSaved(v, m, row, work, calls).1
  {
    match work
    case Died =>
    case Threw => RowSame(m.org, w, v, m.id, FailedParse(row, calls.error));
    case Gave(data) =>
      var parsed := GoodParse(row, data);
      RowSame(m.org, w, v, m.id, parsed);
      SentSame(m.org, WithResume(w, m.id, parsed), WithResume(v, m.id, parsed), EmbedMessage(m), calls.send);
  }

  lemma {:induction false} ParseRunIs(ext: Externals, w: World, m: Message, calls: TaskCalls, row: Resume,
                                      work: Work<ParsedData>)
    requires calls.load == Works && VisibleResume(w.db, m.org, m.id) == Some(row)
    requires ParseWork(w, ext, row.key, calls) == work
    ensures ParseRun(w, ext, m, calls) == ParseSaved(w, m, row, work, calls)
  {
  }

  lemma {:induction false} ParseWorkAlike(ext: Externals, w: World, v: World, key: string, calls: TaskCalls)
    requires FileText(ext, w.objects, key) == FileText(ext, v.objects, key)
    ensures ParseWork(w, ext, key, calls) == ParseWork(v, ext, key, calls)
  {
  }

  lemma {:induction false} ParseSame(ext: Externals, w: World, v: World, m: Message, calls: TaskCalls)
    requires ResumesOk(w, ext) && SameView(m.org, w, v)
    ensures SameView(m.org, ParseRun(w, ext, m, calls).0, ParseRun(v, ext, m, calls).0)
    ensures ParseRun(w, ext, m, calls).1 == ParseRun(v, ext, m, calls).1
  {
    var visible := VisibleResume(w.db, m.org, m.id);
    assert visible == VisibleResume(v.db, m.org, m.id);
    if calls.load == Works && visible.Some? {
      var row := visible.value;
      var work := ParseWork(w, ext, row.key, calls);
      OwnFileSame(ext, w, v, m);
      ParseWorkAlike(ext, w, v, row.key, calls);
      ParseRunIs(ext, w, m, calls, row, work);
      ParseRunIs(ext, v, m, calls, row, work);
      ParseSavedSame(w, v, m, row, work, calls);
    } else {
      assert ParseRun(w, ext, m, calls).0 == w && ParseRun(v, ext, m, calls).0 == v;
    }
  }

  lemma {:induction false} WrittenSame(org: Uuid, ix: Index, jx: Index, c: Collection, call: Call)
    requires SameCollection(org, ix, jx)
    ensures SameCollection(org, Written(ix, org, c, call).0, Written(jx, org, c, call).0)
    ensures Written(ix, org, c, call).1 == Written(jx, org, c, call).1
  {
  }

  lemma {:induction false} EmbeddingSame(ext: Externals, org: Uuid, ix: Index, jx: Index, sourceType: string,
                                         sourceId: Uuid,
                                         candidateId: Uuid, text: string, calls: EmbedCalls)
    requires SameCollection(org, ix, jx)
    ensures
      var r, t := SourceEmbedded(ix, ext, org, sourceType, sourceId, candidateId, text, calls),
                  SourceEmbedded(jx, ext, org, sourceType, sourceId, candidateId, text, calls);
      SameCollection(org, r.0, t.0) && r.1 == t.1
  {
    var bare := WithoutSource(CollectionOf(ix, org), sourceType, sourceId);
    assert CollectionOf(ix, org) == CollectionOf(jx, org);
    WrittenSame(org, ix, jx, bare, calls.delete);
    var kx, lx := Written(ix, org, bare, calls.delete).0, Written(jx, org, bare, calls.delete).0;
    assert CollectionOf(kx, org) == CollectionOf(lx, org);
    WrittenSame(org, kx, lx, PutPoints(CollectionOf(kx, org), SourcePoints(ext, org, sourceType, sourceId, candidateId, text)),
                calls.upsert);
  }

  lemma {:induction false} EmbedWorkAlike(ext: Externals, w: World, v: World, m: Message, row: Resume, calls: TaskCalls)
    requires SameCollection(m.org, w.index, v.index)
    requires FileText(ext, w.objects, row.key) == FileText(ext, v.objects, row.key)
    ensures
      var r, t := EmbedWork(w, ext, m, row, calls), EmbedWork(v, ext, m, row, calls);
      SameCollection(m.org, r.0, t.0) && r.1 == t.1
  {
    if FileText(ext, w.objects, row.key).Some? {
      EmbeddingSame(ext, m.org, w.index, v.index, RESUME, m.id, row.candidate, FileText(ext, w.objects, row.key).value,
                    calls.index);
    }
  }

  lemma {:induction false} EmbedSavedSame(w: World, v: World, m: Message, row: Resume, work: Work<()>, calls: TaskCalls)
    requires SameView(m.org, w, v) && VisibleResume(w.db, m.org, m.id).Some?
    ensures SameView(m.org, EmbedSaved(w, m, row, work, calls).0, EmbedSaved(v, m, row, work, calls).0)
    ensures EmbedSaved(w, m, row, work, calls).1 == EmbedSaved(v, m, row, work, calls).1
  {
    match work
    case Died =>
    case Threw => RowSame(m.org, w, v, m.id, FailedEmbed(row, calls.error));
    case Gave(_) => RowSame(m.org, w, v, m.id, GoodEmbed(row));
  }

  lemma {:induction false} EmbedRunIs(ext: Externals, w: World, m: Message, calls: TaskCalls, row: Resume)
    requires calls.load == Works && VisibleResume(w.db, m.org, m.id) == Some(row)
    ensures
      var (ix, work) := EmbedWork(w, ext, m, row, calls);
      EmbedRun(w, ext, m, calls) == EmbedSaved(w.(index := ix), m, row, work, calls)
  {
  }

  lemma {:induction false} IndexSame(org: Uuid, w: World, v: World, ix: Index, jx: Index)
    requires SameView(org, w, v) && SameCollection(org, ix, jx)
    ensures SameView(org, w.(index := ix), v.(index := jx))
  {
  }

  lemma {:induction false} EmbedSame(ext: Externals, w: World, v: World, m: Message, calls: TaskCalls)
    requires ResumesOk(w, ext) && SameView(m.org, w, v)
    ensures SameView(m.org, EmbedRun(w, ext, m, calls).0, EmbedRun(v, ext, m, calls).0)
    ensures EmbedRun(w, ext, m, calls).1 == EmbedRun(v, ext, m, calls).1
  {
    var visible := VisibleResume(w.db, m.org, m.id);
    assert visible == VisibleResume(v.db, m.org, m.id);
    if calls.load == Works && visible.Some? {
      var row := visible.value;
      OwnFileSame(ext, w, v, m);
      EmbedWorkAlike(ext, w, v, m, row, calls);
      EmbedRunIs(ext, w, m, calls, row);
      EmbedRunIs(ext, v, m, calls, row);
      var (ix, work) := EmbedWork(w, ext, m, row, calls);
      var jx := EmbedWork(v, ext, m, row, calls).0;
      IndexSame(m.org, w, v, ix, jx);
      EmbedSavedSame(w.(index := ix), v.(index := jx), m, row, work, calls);
    } else {
      assert EmbedRun(w, ext, m, calls).0 == w && EmbedRun(v, ext, m, calls).0 == v;
    }
  }

  // ----- its own verdicts -----

  lemma {:induction false} AssessedSame(ext: Externals, w: World, v: World, m: Message, resumeId: Uuid,
                                        data: ParsedData,
                                        requisition: Requisition, calls: TaskCalls)
    requires SameView(m.org, w, v)
    ensures Assessed(w, ext, m, resumeId, data, requisition, calls) == Assessed(v, ext, m, resumeId, data, requisition, calls)
  {
    var score := ScoreResumeFit(data, Requirements(requisition));
    var vectors := ext.embed([QueryText(requisition.title, score)]);
    assert Context(w.index, ext, m.org, RESUME, resumeId, vectors, calls.search)
        == Context(v.index, ext, m.org, RESUME, resumeId, vectors, calls.search);
  }

  lemma {:induction false} VerdictForSame(ext: Externals, w: World, v: World, m: Message, calls: TaskCalls)
    requires SameView(m.org, w, v)
    ensures VerdictFor(w, ext, m, calls) == VerdictFor(v, ext, m, calls)
  {
    var app := VisibleApplication(w.db, m.org, m.id);
    assert app == VisibleApplication(v.db, m.org, m.id);
    if app.Some? {
      var resume, requisition := VisibleResume(w.db, m.org, app.value.resume),
                                 VisibleRequisition(w.db, m.org, app.value.requisition);
      assert resume == VisibleResume(v.db, m.org, app.value.resume);
      assert requisition == VisibleRequisition(v.db, m.org, app.value.requisition);
      if resume.Some? && requisition.Some? && resume.value.parsedData.Some? {
        AssessedSame(ext, w, v, m, app.value.resume, resume.value.parsedData.value, requisition.value, calls);
      }
    }
  }

  function WithVerdict(w: World, id: Uuid, row: Verdict): World {
    w.(db := w.db.(verdicts := w.db.verdicts[id := row]))
  }

  /** `w` after a change to no table but the verdicts. */
  ghost predicate OnlyVerdicts(db: Db, next: Db) {
    next == db.(verdicts := next.verdicts)
  }

  lemma {:induction false} VerdictTablesSame(org: Uuid, db: Db, x: Db, eb: Db, y: Db)
    requires SameRows(org, db, eb) && OnlyVerdicts(db, x) && OnlyVerdicts(eb, y)
    requires forall i :: VisibleVerdict(x, org, i) == VisibleVerdict(y, org, i)
    ensures SameRows(org, x, y)
  {
    assert forall i :: VisibleCandidate(x, org, i) == VisibleCandidate(db, org, i)
                    && VisibleCandidate(y, org, i) == VisibleCandidate(eb, org, i);
    assert forall i :: VisibleRequisition(x, org, i) == VisibleRequisition(db, org, i)
                    && VisibleRequisition(y, org, i) == VisibleRequisition(eb, org, i);
    assert forall i :: VisibleResume(x, org, i) == VisibleResume(db, org, i)
                    && VisibleResume(y, org, i) == VisibleResume(eb, org, i);
    assert forall i :: VisibleApplication(x, org, i) == VisibleApplication(db, org, i)
                    && VisibleApplication(y, org, i) == VisibleApplication(eb, org, i);
  }

  lemma {:induction false} VerdictRowSame(org: Uuid, w: World, v: World, id: Uuid, row: Verdict)
    requires SameView(org, w, v) && row.org == org
    ensures SameView(org, WithVerdict(w, id, row), WithVerdict(v, id, row))
  {
    var x, y := WithVerdict(w, id, row), WithVerdict(v, id, row);
    forall i
      ensures VisibleVerdict(x.db, org, i) == VisibleVerdict(y.db, org, i)
    {
      assert VisibleVerdict(w.db, org, i) == VisibleVerdict(v.db, org, i);
    }
    VerdictTablesSame(org, w.db, x.db, v.db, y.db);
  }

  /** The row to overwrite, or the new id, is the same. */
  lemma {:induction false} SlotSame(org: Uuid, db: Db, eb: Db, application: Uuid)
    requires SameRows(org, db, eb)
    ensures VerdictsFor(db, org, application, ResumeAnalysis) == VerdictsFor(eb, org, application, ResumeAnalysis)
  {
    forall i
      ensures i in VerdictsFor(db, org, application, ResumeAnalysis)
         <==> i in VerdictsFor(eb, org, application, ResumeAnalysis)
    {
      assert VisibleVerdict(db, org, i) == VisibleVerdict(eb, org, i);
    }
  }

  lemma {:induction false} VerdictSavedIs(ext: Externals, w: World, org: Uuid, row: Verdict,
                                          calls: TaskCalls) returns (i: Uuid)
    requires VerdictsOk(w.db, ext) && calls.newId !in w.db.verdicts && Belongs(w.db, org, row)
    ensures var existing := VerdictsFor(w.db, org, row.application, ResumeAnalysis);
      if existing == {} then i == calls.newId else |existing| == 1 && i == The(existing)
    ensures VerdictSaved(w, org, row, calls) == Committed(w, WithVerdict(w, i, row), calls.commit)
  {
    i := VerdictNeverRefused(w.db, ext, org, calls.newId, row);
  }

  lemma {:induction false} VerdictSavedSame(ext: Externals, w: World, v: World, org: Uuid, row: Verdict,
                                            calls: TaskCalls)
    requires VerdictsOk(w.db, ext) && VerdictsOk(v.db, ext) && SameView(org, w, v)
    requires Belongs(w.db, org, row) && calls.newId !in w.db.verdicts && calls.newId !in v.db.verdicts
    ensures SameView(org, VerdictSaved(w, org, row, calls).0, VerdictSaved(v, org, row, calls).0)
    ensures VerdictSaved(w, org, row, calls).1 == VerdictSaved(v, org, row, calls).1
  {
    assert Belongs(v.db, org, row) by {
      assert VisibleApplication(w.db, org, row.application) == VisibleApplication(v.db, org, row.application);
    }
    var i := VerdictSavedIs(ext, w, org, row, calls);
    var j := VerdictSavedIs(ext, v, org, row, calls);
    SlotSame(org, w.db, v.db, row.application);
    assert i == j;
    VerdictRowSame(org, w, v, i, row);
    CommittedSame(org, w, WithVerdict(w, i, row), v, WithVerdict(v, i, row), calls.commit);
  }

  lemma {:induction false} VerdictSame(ext: Externals, w: World, v: World, m: Message, calls: TaskCalls)
    requires VerdictsOk(w.db, ext) && VerdictsOk(v.db, ext) && SameView(m.org, w, v)
    requires calls.newId !in w.db.verdicts && calls.newId !in v.db.verdicts
    ensures SameView(m.org, VerdictRun(w, ext, m, calls).0, VerdictRun(v, ext, m, calls).0)
    ensures VerdictRun(w, ext, m, calls).1 == VerdictRun(v, ext, m, calls).1
  {
    VerdictForSame(ext, w, v, m, calls);
    VerdictForFacts(w, ext, m, calls);
    var row := VerdictFor(w, ext, m, calls).1;
    if row.Some? {
      VerdictSavedSame(ext, w, v, m.org, row.value, calls);
    }
  }

  // ----- a delivery to it -----

  lemma {:induction false} TaskSame(ext: Externals, w: World, v: World, m: Message, calls: TaskCalls)
    requires Healthy(w, ext) && Healthy(v, ext) && SameView(m.org, w, v)
    requires calls.newId !in w.db.verdicts && calls.newId !in v.db.verdicts
    ensures SameView(m.org, TaskRun(w, ext, m, calls).0, TaskRun(v, ext, m, calls).0)
    ensures TaskRun(w, ext, m, calls).1 == TaskRun(v, ext, m, calls).1
  {
    match m.kind
    case ParseResume => ParseSame(ext, w, v, m, calls);
    case EmbedResume => EmbedSame(ext, w, v, m, calls);
    case ResumeVerdict => VerdictSame(ext, w, v, m, calls);
  }

  lemma {:induction false} DeliverySame(ext: Externals, w: World, v: World, m: Message, calls: TaskCalls)
    requires Healthy(w, ext) && Healthy(v, ext) && SameView(m.org, w, v)
    requires calls.newId !in w.db.verdicts && calls.newId !in v.db.verdicts
    ensures SameView(m.org, Delivered(w, ext, m, calls), Delivered(v, ext, m, calls))
  {
    assert m in w.queue <==> m in v.queue;
    if m in w.queue {
      TaskSame(ext, w, v, m, calls);
      var (x, end) := TaskRun(w, ext, m, calls);
      var y := TaskRun(v, ext, m, calls).0;
      SettledSame(m.org, x, y, m, end, calls.ack);
    }
  }

  // ----- its submissions -----

  lemma {:induction false} CandidatesSame(org: Uuid, db: Db, eb: Db, email: string)
    requires SameRows(org, db, eb)
    ensures CandidatesFor(db, org, email) == CandidatesFor(eb, org, email)
  {
    forall i
      ensures i in CandidatesFor(db, org, email) <==> i in CandidatesFor(eb, org, email)
    {
      assert VisibleCandidate(db, org, i) == VisibleCandidate(eb, org, i);
    }
  }

  /** A candidate that cannot be found can be added. */
  lemma {:induction false} NewCandidate(db: Db, sub: Submission, newId: Uuid)
    requires CandidatesFor(db, sub.org, sub.email) == {} && newId !in db.candidates
    ensures CandidateStored(db, sub, newId) ==
      (Done(db.(candidates := db.candidates[newId := Candidate(sub.org, sub.email, sub.fullName, sub.phone)])), newId)
  {
    assert forall c :: (c in db.candidates && db.candidates[c].org == sub.org
                        && Lower(db.candidates[c].email) == Lower(sub.email)) ==> c in CandidatesFor(db, sub.org, sub.email);
  }

  lemma {:induction false} CandidateRowSame(org: Uuid, db: Db, eb: Db, id: Uuid, row: Candidate)
    requires SameRows(org, db, eb)
    ensures SameRows(org, db.(candidates := db.candidates[id := row]), eb.(candidates := eb.candidates[id := row]))
  {
    var x, y := db.(candidates := db.candidates[id := row]), eb.(candidates := eb.candidates[id := row]);
    forall i
      ensures VisibleCandidate(x, org, i) == VisibleCandidate(y, org, i)
    {
      assert VisibleCandidate(db, org, i) == VisibleCandidate(eb, org, i);
    }
    assert forall i :: VisibleRequisition(x, org, i) == VisibleRequisition(db, org, i)
                    && VisibleRequisition(y, org, i) == VisibleRequisition(eb, org, i);
    assert forall i :: VisibleResume(x, org, i) == VisibleResume(db, org, i)
                    && VisibleResume(y, org, i) == VisibleResume(eb, org, i);
    assert forall i :: VisibleApplication(x, org, i) == VisibleApplication(db, org, i)
                    && VisibleApplication(y, org, i) == VisibleApplication(eb, org, i);
    assert forall i :: VisibleVerdict(x, org, i) == VisibleVerdict(db, org, i)
                    && VisibleVerdict(y, org, i) == VisibleVerdict(eb, org, i);
  }

  lemma {:induction false} CandidateSame(db: Db, eb: Db, sub: Submission, newId: Uuid)
    requires SameRows(sub.org, db, eb) && newId !in db.candidates && newId !in eb.candidates
    ensures
      var r, t := CandidateStored(db, sub, newId), CandidateStored(eb, sub, newId);
      && r.1 == t.1 && (r.0.Done? <==> t.0.Done?)
      && (r.0.Done? ==> SameRows(sub.org, r.0.db, t.0.db))
  {
    CandidatesSame(sub.org, db, eb, sub.email);
    if CandidatesFor(db, sub.org, sub.email) == {} {
      NewCandidate(db, sub, newId);
      NewCandidate(eb, sub, newId);
      CandidateRowSame(sub.org, db, eb, newId, Candidate(sub.org, sub.email, sub.fullName, sub.phone));
    }
  }

  /** An application for this pair would be accepted, as far as its organization can see. */
  ghost predicate Acceptable(db: Db, row: Application) {
    && VisibleCandidate(db, row.org, row.candidate).Some? && VisibleRequisition(db, row.org, row.requisition).Some?
    && (forall a :: VisibleApplication(db, row.org, a).Some? ==>
          !BothActive(row, VisibleApplication(db, row.org, a).value))
  }

  function NewApplication(sub: Submission, candidate: Uuid, calls: SubmitCalls): Application {
    Application(sub.org, candidate, sub.requisition, calls.resume, Submitted)
  }

  function WithSubmission(db: Db, sub: Submission, candidate: Uuid, calls: SubmitCalls): Db {
    db.(resumes := db.resumes[calls.resume := NewResume(sub, candidate, KeyOf(sub, calls))],
        applications := db.applications[calls.application := NewApplication(sub, candidate, calls)])
  }

  lemma {:induction false} AcceptedIffAcceptable(db: Db, id: Uuid, row: Application)
    requires SameOrg(db) && id !in db.applications && row.resume in db.resumes
    ensures InsertApplication(db, Some(row.org), id, row).Done? <==> Acceptable(db, row)
  {
    ApplicationAcceptedIff(db, Some(row.org), id, row);
    assert forall a :: a in db.applications && db.applications[a].org == row.org ==>
      VisibleApplication(db, row.org, a) == Some(db.applications[a]);
  }

  lemma {:induction false} StoredIs(db: Db, sub: Submission, candidate: Uuid, calls: SubmitCalls)
    requires SameOrg(db) && candidate in db.candidates
    requires calls.resume !in db.resumes && calls.application !in db.applications
    ensures
      SubmissionStored(db, sub, candidate, calls)
      == if Acceptable(db, NewApplication(sub, candidate, calls)) then Done(WithSubmission(db, sub, candidate, calls))
         else Refused
  {
    var mid := db.(resumes := db.resumes[calls.resume := NewResume(sub, candidate, KeyOf(sub, calls))]);
    var row := NewApplication(sub, candidate, calls);
    assert SubmissionStored(db, sub, candidate, calls) == InsertApplication(mid, Some(sub.org), calls.application, row);
    AcceptedIffAcceptable(mid, calls.application, row);
    assert Acceptable(mid, row) <==> Acceptable(db, row) by {
      assert forall a :: VisibleApplication(mid, row.org, a) == VisibleApplication(db, row.org, a);
    }
  }

  lemma {:induction false} AcceptableSame(db: Db, eb: Db, row: Application)
    requires SameRows(row.org, db, eb)
    ensures Acceptable(db, row) <==> Acceptable(eb, row)
  {
    assert VisibleCandidate(db, row.org, row.candidate) == VisibleCandidate(eb, row.org, row.candidate);
    assert VisibleRequisition(db, row.org, row.requisition) == VisibleRequisition(eb, row.org, row.requisition);
    assert forall a :: VisibleApplication(db, row.org, a) == VisibleApplication(eb, row.org, a);
  }

  lemma {:induction false} SubmissionRowsSame(org: Uuid, db: Db, eb: Db, sub: Submission, candidate: Uuid,
                                              calls: SubmitCalls)
    requires SameRows(org, db, eb)
    ensures SameRows(org, WithSubmission(db, sub, candidate, calls), WithSubmission(eb, sub, candidate, calls))
  {
    var x, y := WithSubmission(db, sub, candidate, calls), WithSubmission(eb, sub, candidate, calls);
    forall i
      ensures VisibleResume(x, org, i) == VisibleResume(y, org, i)
      ensures VisibleApplication(x, org, i) == VisibleApplication(y, org, i)
    {
      assert VisibleResume(db, org, i) == VisibleResume(eb, org, i);
      assert VisibleApplication(db, org, i) == VisibleApplication(eb, org, i);
    }
    assert forall i :: VisibleCandidate(x, org, i) == VisibleCandidate(db, org, i)
                    && VisibleCandidate(y, org, i) == VisibleCandidate(eb, org, i);
    assert forall i :: VisibleRequisition(x, org, i) == VisibleRequisition(db, org, i)
                    && VisibleRequisition(y, org, i) == VisibleRequisition(eb, org, i);
    assert forall i :: VisibleVerdict(x, org, i) == VisibleVerdict(db, org, i)
                    && VisibleVerdict(y, org, i) == VisibleVerdict(eb, org, i);
  }

  lemma {:induction false} StoredSame(db: Db, eb: Db, sub: Submission, candidate: Uuid, calls: SubmitCalls)
    requires SameRows(sub.org, db, eb) && SameOrg(db) && SameOrg(eb)
    requires candidate in db.candidates && candidate in eb.candidates
    requires calls.resume !in db.resumes && calls.application !in db.applications
    requires calls.resume !in eb.resumes && calls.application !in eb.applications
    ensures
      var r, t := SubmissionStored(db, sub, candidate, calls), SubmissionStored(eb, sub, candidate, calls);
      (r.Done? <==> t.Done?) && (r.Done? ==> SameRows(sub.org, r.db, t.db))
  {
    StoredIs(db, sub, candidate, calls);
    StoredIs(eb, sub, candidate, calls);
    AcceptableSame(db, eb, NewApplication(sub, candidate, calls));
    SubmissionRowsSame(sub.org, db, eb, sub, candidate, calls);
  }

  lemma {:induction false} UploadSame(w: World, v: World, sub: Submission, calls: SubmitCalls)
    requires SameView(sub.org, w, v)
    ensures SameView(sub.org, FileUploaded(w, sub, calls).0, FileUploaded(v, sub, calls).0)
    ensures FileUploaded(w, sub, calls).1 == FileUploaded(v, sub, calls).1
  {
  }

  lemma {:induction false} SubmitSavedSame(w: World, v: World, sub: Submission, rows: Answer, theirRows: Answer,
                                           calls: SubmitCalls)
    requires SameView(sub.org, w, v)
    requires (rows.Done? <==> theirRows.Done?) && (rows.Done? ==> SameRows(sub.org, rows.db, theirRows.db))
    ensures SameView(sub.org, SubmitSaved(w, sub, rows, calls).0, SubmitSaved(v, sub, theirRows, calls).0)
  {
    if rows.Done? {
      SentSame(sub.org, w.(db := rows.db), v.(db := theirRows.db), Message(ParseResume, calls.resume, sub.org, 0), calls.send);
    }
  }

  lemma {:induction false} CandidateFacts(db: Db, sub: Submission, calls: SubmitCalls)
    requires CandidateStored(db, sub, calls.candidate).0.Done?
    ensures
      var (found, candidate) := CandidateStored(db, sub, calls.candidate);
      && candidate in found.db.candidates
      && found.db.resumes == db.resumes && found.db.applications == db.applications
  {
  }

  /** From the upload on. */
  function SubmitRest(w: World, sub: Submission, rows: Answer, calls: SubmitCalls): World {
    var (v, end) := FileUploaded(w, sub, calls);
    if end != Returned then v else SubmitSaved(v, sub, rows, calls).0
  }

  lemma {:induction false} SubmitRestSame(w: World, v: World, sub: Submission, rows: Answer, theirRows: Answer,
                                          calls: SubmitCalls)
    requires SameView(sub.org, w, v)
    requires (rows.Done? <==> theirRows.Done?) && (rows.Done? ==> SameRows(sub.org, rows.db, theirRows.db))
    ensures SameView(sub.org, SubmitRest(w, sub, rows, calls), SubmitRest(v, sub, theirRows, calls))
  {
    UploadSame(w, v, sub, calls);
    SubmitSavedSame(FileUploaded(w, sub, calls).0, FileUploaded(v, sub, calls).0, sub, rows, theirRows, calls);
  }

  lemma {:induction false} SubmitRunIs(w: World, sub: Submission, calls: SubmitCalls)
    ensures
      var (found, candidate) := CandidateStored(w.db, sub, calls.candidate);
      SubmitRun(w, sub, calls).0
      == if calls.find != Works || found.Refused? then w
         else SubmitRest(w, sub, SubmissionStored(found.db, sub, candidate, calls), calls)
  {
  }

  /** The rows a submission wants are the same, as far as its organization sees. */
  lemma {:induction false} WantedRowsSame(db: Db, eb: Db, sub: Submission, calls: SubmitCalls)
    requires Sound(db) && Sound(eb) && SameRows(sub.org, db, eb)
    requires calls.candidate !in db.candidates && calls.resume !in db.resumes && calls.application !in db.applications
    requires calls.candidate !in eb.candidates && calls.resume !in eb.resumes && calls.application !in eb.applications
    requires CandidateStored(db, sub, calls.candidate).0.Done? && CandidateStored(eb, sub, calls.candidate).0.Done?
    ensures
      var (found, candidate) := CandidateStored(db, sub, calls.candidate);
      var (theirs, same) := CandidateStored(eb, sub, calls.candidate);
      var r, t := SubmissionStored(found.db, sub, candidate, calls), SubmissionStored(theirs.db, sub, same, calls);
      (r.Done? <==> t.Done?) && (r.Done? ==> SameRows(sub.org, r.db, t.db))
  {
    CandidateSame(db, eb, sub, calls.candidate);
    CandidateFacts(db, sub, calls);
    CandidateFacts(eb, sub, calls);
    CandidateKeepsSound(db, sub, calls.candidate);
    CandidateKeepsSound(eb, sub, calls.candidate);
    var (found, candidate) := CandidateStored(db, sub, calls.candidate);
    StoredSame(found.db, CandidateStored(eb, sub, calls.candidate).0.db, sub, candidate, calls);
  }

  lemma {:induction false} SubmitSame(w: World, v: World, sub: Submission, calls: SubmitCalls)
    requires Sound(w.db) && Sound(v.db) && SameView(sub.org, w, v)
    requires calls.candidate !in w.db.candidates && calls.resume !in w.db.resumes && calls.application !in w.db.applications
    requires calls.candidate !in v.db.candidates && calls.resume !in v.db.resumes && calls.application !in v.db.applications
    ensures SameView(sub.org, SubmitRun(w, sub, calls).0, SubmitRun(v, sub, calls).0)
  {
    CandidateSame(w.db, v.db, sub, calls.candidate);
    SubmitRunIs(w, sub, calls);
    SubmitRunIs(v, sub, calls);
    var (found, candidate) := CandidateStored(w.db, sub, calls.candidate);
    var theirs := CandidateStored(v.db, sub, calls.candidate).0;
    if found.Done? {
      WantedRowsSame(w.db, v.db, sub, calls);
      SubmitRestSame(w, v, sub, SubmissionStored(found.db, sub, candidate, calls),
                     SubmissionStored(theirs.db, sub, candidate, calls), calls);
    }
  }

  lemma {:induction false} TearDownSame(w: World, v: World, org: Uuid, exists_: Call, delete: Call)
    requires SameView(org, w, v)
    ensures SameView(org, w.(index := TornDown(w.index, org, exists_, delete).0),
                          v.(index := TornDown(v.index, org, exists_, delete).0))
  {
  }

  lemma {:induction false} TranscriptSame(ext: Externals, w: World, v: World, org: Uuid, t: Uuid, candidate: Uuid,
                                          text: string, calls: EmbedCalls)
    requires SameView(org, w, v)
    ensures SameView(org, w.(index := SourceEmbedded(w.index, ext, org, TRANSCRIPT, t, candidate, text, calls).0),
                          v.(index := SourceEmbedded(v.index, ext, org, TRANSCRIPT, t, candidate, text, calls).0))
  {
    EmbeddingSame(ext, org, w.index, v.index, TRANSCRIPT, t, candidate, text, calls);
    IndexSame(org, w, v, SourceEmbedded(w.index, ext, org, TRANSCRIPT, t, candidate, text, calls).0,
              SourceEmbedded(v.index, ext, org, TRANSCRIPT, t, candidate, text, calls).0);
  }

  // ----- steps of the others -----

  lemma {:induction false} RowUnseen(org: Uuid, w: World, id: Uuid, row: Resume)
    requires row.org != org && VisibleResume(w.db, row.org, id).Some?
    ensures SameView(org, w, WithResume(w, id, row))
  {
    var x := WithResume(w, id, row);
    assert forall i :: VisibleResume(x.db, org, i) == VisibleResume(w.db, org, i);
    assert forall i :: VisibleCandidate(x.db, org, i) == VisibleCandidate(w.db, org, i);
    assert forall i :: VisibleRequisition(x.db, org, i) == VisibleRequisition(w.db, org, i);
    assert forall i :: VisibleApplication(x.db, org, i) == VisibleApplication(w.db, org, i);
    assert forall i :: VisibleVerdict(x.db, org, i) == VisibleVerdict(w.db, org, i);
  }

  lemma {:induction false} MessageUnseen(org: Uuid, w: World, m: Message)
    requires m.org != org
    ensures SameView(org, w, w.(queue := w.queue + multiset{m}))
  {
  }

  lemma {:induction false} ParseUnseen(org: Uuid, w: World, ext: Externals, m: Message, calls: TaskCalls, v: World,
                                       end: End)
    requires ParseCases(w, ext, m, calls, v, end) && m.org != org
    ensures SameView(org, w, v)
  {
    var visible := VisibleResume(w.db, m.org, m.id);
    if visible.Some? && v != w {
      var row := visible.value;
      var failed := FailedParse(row, calls.error);
      if v == WithResume(w, m.id, failed) {
        RowUnseen(org, w, m.id, failed);
      } else {
        var parsed := GoodParse(row, ext.extractor(FileText(ext, w.objects, row.key).value));
        RowUnseen(org, w, m.id, parsed);
        MessageUnseen(org, WithResume(w, m.id, parsed), EmbedMessage(m));
      }
    }
  }

  lemma {:induction false} IndexUnseen(org: Uuid, other: Uuid, w: World, ix: Index)
    requires OnlyIn(w.index, ix, other) && other != org
    ensures SameView(org, w, w.(index := ix))
  {
    CollectionNameInjective(org, other);
  }

  lemma {:induction false} EmbedUnseen(org: Uuid, w: World, ext: Externals, m: Message, calls: TaskCalls, v: World,
                                       end: End)
    requires EmbedCases(w, ext, m, calls, v, end) && m.org != org
    ensures SameView(org, w, v)
  {
    var visible := VisibleResume(w.db, m.org, m.id);
    if visible.Some? {
      var row := visible.value;
      var completed: bool :| EmbedCase(w, ext, m, row, calls, v, end, completed);
      EmbedIndexFrame(w, ext, m, row, calls, v.index, completed);
      IndexUnseen(org, m.org, w, v.index);
      var touched := w.(index := v.index);
      RowUnseen(org, touched, m.id, FailedEmbed(row, calls.error));
      RowUnseen(org, touched, m.id, GoodEmbed(row));
    }
  }

  lemma {:induction false} VerdictRowUnseen(org: Uuid, w: World, id: Uuid, row: Verdict)
    requires row.org != org && (id in w.db.verdicts ==> w.db.verdicts[id].org != org)
    ensures SameView(org, w, WithVerdict(w, id, row))
  {
    var x := WithVerdict(w, id, row);
    assert forall i :: VisibleVerdict(x.db, org, i) == VisibleVerdict(w.db, org, i);
    VerdictTablesSame(org, w.db, w.db, w.db, x.db);
  }

  /** A verdict run writes one row of its organization, or none. */
  lemma {:induction false} VerdictWrites(w: World, ext: Externals, m: Message, calls: TaskCalls) returns (id: Uuid,
                                         row: Verdict)
    requires VerdictsOk(w.db, ext) && calls.newId !in w.db.verdicts
    ensures VerdictRun(w, ext, m, calls).0 in {w, WithVerdict(w, id, row)}
    ensures row.org == m.org && (id == calls.newId || VisibleVerdict(w.db, m.org, id).Some?)
  {
    id, row := calls.newId, Verdict(m.org, m.id, ResumeAnalysis, None, None, TranscriptScore(0, false), Review, "");
    VerdictForFacts(w, ext, m, calls);
    var found := VerdictFor(w, ext, m, calls).1;
    if found.Some? {
      row := found.value;
      id := VerdictNeverRefused(w.db, ext, m.org, calls.newId, row);
      assert VerdictSaved(w, m.org, row, calls).0 in {w, WithVerdict(w, id, row)};
    }
  }

  lemma {:induction false} VerdictUnseen(org: Uuid, w: World, ext: Externals, m: Message, calls: TaskCalls)
    requires VerdictsOk(w.db, ext) && calls.newId !in w.db.verdicts && m.org != org
    ensures SameView(org, w, VerdictRun(w, ext, m, calls).0)
  {
    var id, row := VerdictWrites(w, ext, m, calls);
    VerdictRowUnseen(org, w, id, row);
  }

  lemma {:induction false} TaskUnseen(org: Uuid, w: World, ext: Externals, m: Message, calls: TaskCalls)
    requires VerdictsOk(w.db, ext) && calls.newId !in w.db.verdicts && m.org != org
    ensures SameView(org, w, TaskRun(w, ext, m, calls).0)
  {
    var (v, end) := TaskRun(w, ext, m, calls);
    match m.kind
    case ParseResume =>
      ParseEffect(w, ext, m, calls);
      ParseUnseen(org, w, ext, m, calls, v, end);
    case EmbedResume =>
      EmbedEffect(w, ext, m, calls);
      EmbedUnseen(org, w, ext, m, calls, v, end);
    case ResumeVerdict =>
      VerdictUnseen(org, w, ext, m, calls);
  }

  lemma {:induction false} DeliveryUnseen(org: Uuid, w: World, ext: Externals, m: Message, calls: TaskCalls)
    requires VerdictsOk(w.db, ext) && calls.newId !in w.db.verdicts && m.org != org
    ensures SameView(org, w, Delivered(w, ext, m, calls))
  {
    if m in w.queue {
      TaskUnseen(org, w, ext, m, calls);
      var (v, end) := TaskRun(w, ext, m, calls);
      SettledUnseen(org, v, m, end, calls.ack);
      SameViewJoins(org, w, v, Pipeline.Settled(v, m, end, calls.ack));
    }
  }

  lemma {:induction false} RowsUnseen(org: Uuid, db: Db, sub: Submission, calls: SubmitCalls, next: Db, candidate: Uuid)
    requires RowsCases(db, sub, calls, next, candidate) && sub.org != org
    ensures SameRows(org, db, next)
  {
    assert forall i :: VisibleCandidate(next, org, i) == VisibleCandidate(db, org, i);
    assert forall i :: VisibleResume(next, org, i) == VisibleResume(db, org, i);
    assert forall i :: VisibleRequisition(next, org, i) == VisibleRequisition(db, org, i);
    assert forall i :: VisibleApplication(next, org, i) == VisibleApplication(db, org, i);
    assert forall i :: VisibleVerdict(next, org, i) == VisibleVerdict(db, org, i);
  }

  lemma {:induction false} UploadUnseen(org: Uuid, objects: map<string, Bytes>, sub: Submission, calls: SubmitCalls)
    requires sub.org != org
    ensures SameObjects(org, objects, objects[KeyOf(sub, calls) := sub.content])
  {
    assert OrgPrefix(sub.org) <= KeyOf(sub, calls) by {
      assert OrgPrefix(sub.org) <= KeyPrefix(sub.org, calls.resume) <= KeyOf(sub, calls);
    }
    if OrgPrefix(org) <= KeyOf(sub, calls) {
      OrgPrefixesDisjoint(org, sub.org, KeyOf(sub, calls));
    }
  }

  lemma {:induction false} SubmitUnseen(org: Uuid, w: World, sub: Submission, calls: SubmitCalls)
    requires sub.org != org
    ensures SameView(org, w, SubmitRun(w, sub, calls).0)
  {
    var (v, end) := SubmitRun(w, sub, calls);
    SubmitEffect(w, sub, calls);
    UploadUnseen(org, w.objects, sub, calls);
    if SubmissionRows(w.db, sub, calls).Done? {
      var candidate := RowsEffect(w.db, sub, calls);
      RowsUnseen(org, w.db, sub, calls, SubmissionRows(w.db, sub, calls).db, candidate);
    }
  }

  lemma {:induction false} TearDownUnseen(org: Uuid, w: World, other: Uuid, exists_: Call, delete: Call)
    requires other != org
    ensures SameView(org, w, w.(index := TornDown(w.index, other, exists_, delete).0))
  {
    CollectionNameInjective(org, other);
  }

  // ----- whole runs -----

  /** Ids that are in use. */
  function Ids(db: Db): set<Uuid> {
    db.candidates.Keys + db.resumes.Keys + db.applications.Keys + db.verdicts.Keys
  }

  /** Ids that a step draws. */
  function Draws(e: Event): set<Uuid> {
    match e
    case Submit(_, calls) => {calls.candidate, calls.resume, calls.application}
    case Deliver(_, calls) => {calls.newId}
    case _ => {}
  }

  /** No id is ever drawn twice. */
  predicate DrawsDistinct(used: set<Uuid>, es: seq<Event>)
    decreases |es|
  {
    es == [] || (Draws(es[0]) !! used && DrawsDistinct(used + Draws(es[0]), es[1..]))
  }

  lemma {:induction false} RewriteIds(db: Db, next: Db, id: Uuid)
    requires OneRowRewritten(db, next, id)
    ensures Ids(next) == Ids(db)
  {
  }

  lemma {:induction false} VerdictIds(w: World, ext: Externals, m: Message, calls: TaskCalls)
    requires VerdictsOk(w.db, ext) && calls.newId !in w.db.verdicts
    ensures Ids(VerdictRun(w, ext, m, calls).0.db) <= Ids(w.db) + {calls.newId}
  {
    var id, row := VerdictWrites(w, ext, m, calls);
    assert Ids(WithVerdict(w, id, row).db) <= Ids(w.db) + {calls.newId};
  }

  lemma {:induction false} TaskIds(w: World, ext: Externals, m: Message, calls: TaskCalls)
    requires VerdictsOk(w.db, ext) && calls.newId !in w.db.verdicts
    ensures Ids(TaskRun(w, ext, m, calls).0.db) <= Ids(w.db) + {calls.newId}
  {
    var (v, end) := TaskRun(w, ext, m, calls);
    match m.kind
    case ParseResume =>
      ParseEffect(w, ext, m, calls);
      ParseRewrites(w, ext, m, calls, v, end);
      RewriteIds(w.db, v.db, m.id);
    case EmbedResume =>
      EmbedEffect(w, ext, m, calls);
      EmbedRewrites(w, ext, m, calls, v, end);
      RewriteIds(w.db, v.db, m.id);
    case ResumeVerdict => VerdictIds(w, ext, m, calls);
  }

  lemma {:induction false} AddedIds(db: Db, sub: Submission, calls: SubmitCalls, next: Db, candidate: Uuid)
    requires RowsCases(db, sub, calls, next, candidate)
    ensures Ids(next) <= Ids(db) + {calls.candidate, calls.resume, calls.application}
  {
  }

  lemma {:induction false} SubmitIds(w: World, sub: Submission, calls: SubmitCalls)
    ensures Ids(SubmitRun(w, sub, calls).0.db) <= Ids(w.db) + {calls.candidate, calls.resume, calls.application}
  {
    var (v, end) := SubmitRun(w, sub, calls);
    SubmitEffect(w, sub, calls);
    SubmitHasFrame(w, v, sub, calls, end);
    if v.db != w.db {
      var candidate := RowsEffect(w.db, sub, calls);
      AddedIds(w.db, sub, calls, v.db, candidate);
    }
  }

  lemma {:induction false} DeliveryIds(w: World, ext: Externals, m: Message, calls: TaskCalls)
    requires VerdictsOk(w.db, ext) && calls.newId !in w.db.verdicts
    ensures Ids(Delivered(w, ext, m, calls).db) <= Ids(w.db) + {calls.newId}
  {
    if m in w.queue {
      TaskIds(w, ext, m, calls);
    }
  }

  /** Steps that write no rows. */
  lemma {:induction false} NoRowsWritten(w: World, ext: Externals, e: Event)
    requires e.Publish? || e.TearDown? || e.IndexTranscript?
    ensures Step(w, ext, e).db == w.db
  {
  }

  lemma {:induction false} SubmittedIds(w: World, ext: Externals, e: Event)
    requires e.Submit?
    ensures Ids(Step(w, ext, e).db) <= Ids(w.db) + Draws(e)
  {
    SubmitIds(w, e.sub, e.submitCalls);
  }

  lemma {:induction false} DrawnForVerdict(db: Db, id: Uuid)
    requires {id} !! Ids(db)
    ensures id !in db.verdicts
  {
  }

  lemma {:induction false} DeliveredIds(w: World, ext: Externals, e: Event)
    requires e.Deliver? && VerdictsOk(w.db, ext) && Draws(e) !! Ids(w.db)
    ensures Ids(Step(w, ext, e).db) <= Ids(w.db) + Draws(e)
  {
    DrawnForVerdict(w.db, e.calls.newId);
    DeliveryIds(w, ext, e.message, e.calls);
  }

  lemma {:induction false} StepIds(w: World, ext: Externals, e: Event)
    requires VerdictsOk(w.db, ext) && Draws(e) !! Ids(w.db)
    ensures Ids(Step(w, ext, e).db) <= Ids(w.db) + Draws(e)
  {
    if e.Submit? {
      SubmittedIds(w, ext, e);
    } else if e.Deliver? {
      DeliveredIds(w, ext, e);
    } else {
      NoRowsWritten(w, ext, e);
    }
  }

  /** The drawn ids are new in their own tables. */
  ghost predicate New(db: Db, e: Event) {
    match e
    case Submit(_, calls) =>
      calls.candidate !in db.candidates && calls.resume !in db.resumes && calls.application !in db.applications
    case Deliver(_, calls) => calls.newId !in db.verdicts
    case _ => true
  }

  lemma {:induction false} DrawsAreNew(db: Db, e: Event)
    requires Draws(e) !! Ids(db)
    ensures New(db, e)
  {
  }

  lemma {:induction false} PublishSame(org: Uuid, w: World, v: World, m: Message)
    requires SameView(org, w, v)
    ensures SameView(org, w.(queue := w.queue + multiset{m}), v.(queue := v.queue + multiset{m}))
  {
  }

  /** An organization's own step takes states that look the same to ones that do. */
  lemma {:induction false} StepSame(ext: Externals, w: World, v: World, e: Event)
    requires Healthy(w, ext) && Healthy(v, ext) && SameView(OrgOf(e), w, v) && New(w.db, e) && New(v.db, e)
    ensures SameView(OrgOf(e), Step(w, ext, e), Step(v, ext, e))
  {
    match e
    case Submit(sub, calls) => SubmitSame(w, v, sub, calls);
    case Publish(m) => PublishSame(m.org, w, v, m);
    case Deliver(m, calls) => DeliverySame(ext, w, v, m, calls);
    case TearDown(org, exists_, delete) => TearDownSame(w, v, org, exists_, delete);
    case IndexTranscript(org, t, candidate, text, calls) => TranscriptSame(ext, w, v, org, t, candidate, text, calls);
  }

  lemma {:induction false} TranscriptUnseen(org: Uuid, ext: Externals, w: World, other: Uuid, t: Uuid, candidate: Uuid,
                                            text: string, calls: EmbedCalls)
    requires other != org
    ensures SameView(org, w, w.(index := SourceEmbedded(w.index, ext, other, TRANSCRIPT, t, candidate, text, calls).0))
  {
    EmbeddingOutcome(w.index, ext, other, TRANSCRIPT, t, candidate, text, calls);
    IndexUnseen(org, other, w, SourceEmbedded(w.index, ext, other, TRANSCRIPT, t, candidate, text, calls).0);
  }

  /** Anybody else's step changes nothing it can see. */
  lemma {:induction false} StepUnseen(org: Uuid, ext: Externals, w: World, e: Event)
    requires Healthy(w, ext) && New(w.db, e) && OrgOf(e) != org
    ensures SameView(org, w, Step(w, ext, e))
  {
    match e
    case Submit(sub, calls) => SubmitUnseen(org, w, sub, calls);
    case Publish(m) => MessageUnseen(org, w, m);
    case Deliver(m, calls) => DeliveryUnseen(org, w, ext, m, calls);
    case TearDown(other, exists_, delete) => TearDownUnseen(org, w, other, exists_, delete);
    case IndexTranscript(other, t, candidate, text, calls) => TranscriptUnseen(org, ext, w, other, t, candidate, text, calls);
  }

  /** The run with every other organization's steps removed. */
  function Purge(es: seq<Event>, org: Uuid): seq<Event>
    decreases |es|
  {
    if es == [] then []
    else if OrgOf(es[0]) == org then [es[0]] + Purge(es[1..], org)
    else Purge(es[1..], org)
  }

  lemma {:induction false} PurgedRunLooksTheSame(org: Uuid, ext: Externals, w: World, v: World, used: set<Uuid>,
                                                 es: seq<Event>)
    requires Healthy(w, ext) && Healthy(v, ext) && SameView(org, w, v)
    requires Ids(w.db) <= used && Ids(v.db) <= used && DrawsDistinct(used, es)
    ensures SameView(org, Steps(w, ext, es), Steps(v, ext, Purge(es, org)))
    decreases |es|
  {
    if es != [] {
      var e, rest := es[0], es[1..];
      var x := Step(w, ext, e);
      DrawsAreNew(w.db, e);
      StepKeepsHealthy(w, ext, e);
      StepIds(w, ext, e);
      if OrgOf(e) == org {
        var y := Step(v, ext, e);
        DrawsAreNew(v.db, e);
        StepKeepsHealthy(v, ext, e);
        StepIds(v, ext, e);
        StepSame(ext, w, v, e);
        assert ([e] + Purge(rest, org))[1..] == Purge(rest, org);
        PurgedRunLooksTheSame(org, ext, x, y, used + Draws(e), rest);
      } else {
        StepUnseen(org, ext, w, e);
        SameViewJoins(org, x, w, v);
        PurgedRunLooksTheSame(org, ext, x, v, used + Draws(e), rest);
      }
    }
  }

  /** Purge non-interference: after any run of submissions, published messages, deliveries
      and teardowns of any organizations, failures and foreign task ids included, what an
      organization sees is what it would see if the others had done nothing. */
  lemma {:induction false} OthersDoNotMatter(org: Uuid, ext: Externals, start: World, es: seq<Event>)
    requires Start(start) && DrawsDistinct({}, es)
    ensures SameView(org, Steps(start, ext, es), Steps(start, ext, Purge(es, org)))
  {
    StartIsHealthy(start, ext);
    PurgedRunLooksTheSame(org, ext, start, start, {}, es);
  }
}
