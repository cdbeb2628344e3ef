/** Invariant I3 over every history of statements, from sessions under any setting. */
module SameOrganization {
  import opened Basics
  import opened Text
  import opened Encodings
  import opened Schema

  datatype Statement =
    | AddCandidate(id: Uuid, candidate: Candidate)
    | SetCandidate(id: Uuid, candidate: Candidate)
    | DropCandidate(id: Uuid)
    | AddRequisition(id: Uuid, requisition: Requisition)
    | SetRequisition(id: Uuid, requisition: Requisition)
    | DropRequisition(id: Uuid)
    | AddResume(id: Uuid, resume: Resume)
    | SetResume(id: Uuid, resume: Resume)
    | DropResume(id: Uuid)
    | AddApplication(id: Uuid, application: Application)
    | SetApplication(id: Uuid, application: Application)
    | DropApplication(id: Uuid)
    | AddVerdict(id: Uuid, verdict: Verdict)
    | SetVerdict(id: Uuid, verdict: Verdict)

  function Execute(db: Db, s: Setting, stmt: Statement): Answer {
    match stmt
    case AddCandidate(id, row) => InsertCandidate(db, s, id, row)
    case SetCandidate(id, row) => UpdateCandidate(db, s, id, row)
    case DropCandidate(id) => DeleteCandidate(db, s, id)
    case AddRequisition(id, row) => InsertRequisition(db, s, id, row)
    case SetRequisition(id, row) => UpdateRequisition(db, s, id, row)
    case DropRequisition(id) => DeleteRequisition(db, s, id)
    case AddResume(id, row) => InsertResume(db, s, id, row)
    case SetResume(id, row) => UpdateResume(db, s, id, row)
    case DropResume(id) => DeleteResume(db, s, id)
    case AddApplication(id, row) => InsertApplication(db, s, id, row)
    case SetApplication(id, row) => UpdateApplication(db, s, id, row)
    case DropApplication(id) => DeleteApplication(db, s, id)
    case AddVerdict(id, row) => InsertVerdict(db, s, id, row)
    case SetVerdict(id, row) => UpdateVerdict(db, s, id, row)
  }

  /** One transaction: each statement under the setting in force when it is issued. */
  datatype Transaction = Transaction(statements: seq<(Setting, Statement)>, commits: bool)

  function ExecuteAll(db: Db, stmts: seq<(Setting, Statement)>): Answer
    decreases |stmts|
  {
    if stmts == [] then Done(db) else
      match Execute(db, stmts[0].0, stmts[0].1)
      case Refused => Refused
      case Done(next) => ExecuteAll(next, stmts[1..])
  }

  /** A refused statement or a rollback leaves the committed rows as they were. */
  function RunTransaction(db: Db, tx: Transaction): Db {
    match ExecuteAll(db, tx.statements)
    case Done(next) => if tx.commits then next else db
    case Refused => db
  }

  function RunTransactions(db: Db, txs: seq<Transaction>): Db
    decreases |txs|
  {
    if txs == [] then db else RunTransactions(RunTransaction(db, txs[0]), txs[1..])
  }

  /** I3: an application, its candidate and its requisition share one organization. */
  ghost predicate SameOrg(db: Db) {
    forall a :: a in db.applications ==>
      var row := db.applications[a];
      && row.candidate in db.candidates && db.candidates[row.candidate].org == row.org
      && row.requisition in db.requisitions && db.requisitions[row.requisition].org == row.org
  }

  /** One candidate per organization and case-folded email. */
  ghost predicate UniqueEmails(db: Db) {
    forall c, d :: c in db.candidates && d in db.candidates && c != d ==>
      db.candidates[c].org != db.candidates[d].org
      || Lower(db.candidates[c].email) != Lower(db.candidates[d].email)
  }

  predicate BothActive(a: Application, b: Application) {
    Active(a.status) && Active(b.status) && a.candidate == b.candidate && a.requisition == b.requisition
  }

  /** One active application per candidate and requisition. */
  ghost predicate UniqueActive(db: Db) {
    forall a, b :: a in db.applications && b in db.applications && a != b ==>
      !BothActive(db.applications[a], db.applications[b])
  }

  ghost predicate Sound(db: Db) {
    SameOrg(db) && UniqueEmails(db) && UniqueActive(db)
  }

  lemma PutCandidate(db: Db, id: Uuid, row: Candidate)
    requires Sound(db) && !EmailTaken(db, id, row)
    requires id in db.candidates ==> db.candidates[id].org == row.org
    ensures Sound(db.(candidates := db.candidates[id := row]))
  {
    var next := db.(candidates := db.candidates[id := row]);
    assert SameOrg(next);
    forall c, d | c in next.candidates && d in next.candidates && c != d
      ensures next.candidates[c].org != next.candidates[d].org
              || Lower(next.candidates[c].email) != Lower(next.candidates[d].email)
    {
      if c != id && d != id {
        assert c in db.candidates && d in db.candidates;
      }
    }
  }

  lemma DropCandidateRow(db: Db, id: Uuid)
    requires Sound(db)
    requires !exists a :: a in db.applications && db.applications[a].candidate == id
    ensures Sound(db.(candidates := db.candidates - {id}))
  {
  }

  lemma PutApplication(db: Db, s: Setting, id: Uuid, row: Application)
    requires Sound(db) && ApplicationConsistent(db, s, row) && !ActivePairTaken(db, id, row)
    ensures Sound(db.(applications := db.applications[id := row]))
  {
    var next := db.(applications := db.applications[id := row]);
    forall a, b | a in next.applications && b in next.applications && a != b
      ensures !BothActive(next.applications[a], next.applications[b])
    {
      if a != id && b != id {
        assert a in db.applications && b in db.applications;
      }
    }
  }

  lemma {:induction false} CandidatesKeepSound(db: Db, s: Setting, stmt: Statement)
    requires Sound(db) && (stmt.AddCandidate? || stmt.SetCandidate? || stmt.DropCandidate?)
    ensures var r := Execute(db, s, stmt); r.Done? ==> Sound(r.db)
  {
    var r := Execute(db, s, stmt);
    if r.Done? && r.db != db {
      match stmt
      case AddCandidate(id, row) => PutCandidate(db, id, row);
      case SetCandidate(id, row) => PutCandidate(db, id, row);
      case DropCandidate(id) => DropCandidateRow(db, id);
    }
  }

  /** No candidate's or application's row is written, no requisition moved or taken from
      an application. */
  ghost predicate RequisitionsOnly(db: Db, next: Db) {
    && next == db.(requisitions := next.requisitions)
    && (forall q :: q in db.requisitions ==>
          if q in next.requisitions then next.requisitions[q].org == db.requisitions[q].org
          else !exists a :: a in db.applications && db.applications[a].requisition == q)
  }

  lemma {:induction false} RequisitionsWritten(db: Db, s: Setting, stmt: Statement)
    requires stmt.AddRequisition? || stmt.SetRequisition? || stmt.DropRequisition?
    ensures var r := Execute(db, s, stmt); r.Done? ==> RequisitionsOnly(db, r.db)
  {
  }

  lemma {:induction false} RequisitionsOnlyKeepsSound(db: Db, next: Db)
    requires Sound(db) && RequisitionsOnly(db, next)
    ensures Sound(next)
  {
    forall a | a in next.applications
      ensures
        var row := next.applications[a];
        && row.candidate in next.candidates && next.candidates[row.candidate].org == row.org
        && row.requisition in next.requisitions && next.requisitions[row.requisition].org == row.org
    {
      assert a in db.applications;
    }
  }

  lemma {:induction false} RequisitionsKeepSound(db: Db, s: Setting, stmt: Statement)
    requires Sound(db) && (stmt.AddRequisition? || stmt.SetRequisition? || stmt.DropRequisition?)
    ensures var r := Execute(db, s, stmt); r.Done? ==> Sound(r.db)
  {
    RequisitionsWritten(db, s, stmt);
    if Execute(db, s, stmt).Done? {
      RequisitionsOnlyKeepsSound(db, Execute(db, s, stmt).db);
    }
  }

  lemma {:induction false} ApplicationsKeepSound(db: Db, s: Setting, stmt: Statement)
    requires Sound(db) && (stmt.AddApplication? || stmt.SetApplication? || stmt.DropApplication?)
    ensures var r := Execute(db, s, stmt); r.Done? ==> Sound(r.db)
  {
    var r := Execute(db, s, stmt);
    if r.Done? && r.db != db {
      match stmt
      case AddApplication(id, row) => PutApplication(db, s, id, row);
      case SetApplication(id, row) => PutApplication(db, s, id, row);
      case DropApplication(id) =>
    }
  }

  /** Nothing sound depends on the resumes or the verdicts. */
  lemma {:induction false} OtherTablesKeepSound(db: Db, next: Db)
    requires Sound(db) && next == db.(resumes := next.resumes, verdicts := next.verdicts)
    ensures Sound(next)
  {
  }

  lemma {:induction false} ExecuteKeepsSound(db: Db, s: Setting, stmt: Statement)
    requires Sound(db)
    ensures var r := Execute(db, s, stmt); r.Done? ==> Sound(r.db)
  {
    if stmt.AddCandidate? || stmt.SetCandidate? || stmt.DropCandidate? {
      CandidatesKeepSound(db, s, stmt);
    } else if stmt.AddRequisition? || stmt.SetRequisition? || stmt.DropRequisition? {
      RequisitionsKeepSound(db, s, stmt);
    } else if stmt.AddApplication? || stmt.SetApplication? || stmt.DropApplication? {
      ApplicationsKeepSound(db, s, stmt);
    } else if Execute(db, s, stmt).Done? {
      OtherTablesKeepSound(db, Execute(db, s, stmt).db);
    }
  }

  lemma {:induction false} ExecuteAllKeepsSound(db: Db, stmts: seq<(Setting, Statement)>)
    requires Sound(db)
    ensures var r := ExecuteAll(db, stmts); r.Done? ==> Sound(r.db)
    decreases |stmts|
  {
    if stmts != [] {
      ExecuteKeepsSound(db, stmts[0].0, stmts[0].1);
      var r := Execute(db, stmts[0].0, stmts[0].1);
      if r.Done? {
        ExecuteAllKeepsSound(r.db, stmts[1..]);
      }
    }
  }

  /** I3 and both uniqueness rules hold after every history of transactions, whatever
      settings their sessions use, committed or not. */
  lemma {:induction false} SoundForever(db: Db, txs: seq<Transaction>)
    requires Sound(db)
    ensures Sound(RunTransactions(db, txs))
    decreases |txs|
  {
    if txs != [] {
      ExecuteAllKeepsSound(db, txs[0].statements);
      SoundForever(RunTransaction(db, txs[0]), txs[1..]);
    }
  }

  ghost predicate CandidateOrgsFixed(db: Db, next: Db) {
    forall c :: c in db.candidates && c in next.candidates ==> next.candidates[c].org == db.candidates[c].org
  }

  ghost predicate RequisitionOrgsFixed(db: Db, next: Db) {
    forall q :: q in db.requisitions && q in next.requisitions ==> next.requisitions[q].org == db.requisitions[q].org
  }

  ghost predicate ApplicationOrgsFixed(db: Db, next: Db) {
    forall a :: a in db.applications && a in next.applications ==> next.applications[a].org == db.applications[a].org
  }

  /** Rows present in both states belong to the same organization in both. */
  ghost predicate OrgsFixed(db: Db, next: Db) {
    CandidateOrgsFixed(db, next) && RequisitionOrgsFixed(db, next) && ApplicationOrgsFixed(db, next)
  }

  lemma {:induction false} CandidatesStay(db: Db, s: Setting, stmt: Statement)
    requires Execute(db, s, stmt).Done?
    ensures CandidateOrgsFixed(db, Execute(db, s, stmt).db)
  {
    if !stmt.AddCandidate? && !stmt.SetCandidate? && !stmt.DropCandidate? {
      assert Execute(db, s, stmt).db.candidates == db.candidates;
    }
  }

  lemma {:induction false} RequisitionsStay(db: Db, s: Setting, stmt: Statement)
    requires Execute(db, s, stmt).Done?
    ensures RequisitionOrgsFixed(db, Execute(db, s, stmt).db)
  {
    if !stmt.AddRequisition? && !stmt.SetRequisition? && !stmt.DropRequisition? {
      assert Execute(db, s, stmt).db.requisitions == db.requisitions;
    }
  }

  lemma {:induction false} ApplicationsStay(db: Db, s: Setting, stmt: Statement)
    requires Execute(db, s, stmt).Done?
    ensures ApplicationOrgsFixed(db, Execute(db, s, stmt).db)
  {
    if !stmt.AddApplication? && !stmt.SetApplication? && !stmt.DropApplication? {
      assert Execute(db, s, stmt).db.applications == db.applications;
    }
  }

  /** Why the policies are needed as well as the trigger: no UPDATE moves a candidate or a
      requisition to another organization, under any setting. */
  lemma {:induction false} OrganizationIsFixed(db: Db, s: Setting, stmt: Statement)
    ensures var r := Execute(db, s, stmt); r.Done? ==> OrgsFixed(db, r.db)
  {
    if Execute(db, s, stmt).Done? {
      CandidatesStay(db, s, stmt);
      RequisitionsStay(db, s, stmt);
      ApplicationsStay(db, s, stmt);
    }
  }

  /** The trigger alone would not do: it does not fire on `candidates`, and an update that
      the policies did not check breaks I3 for every application of that candidate. */
  lemma {:induction false} TriggerAloneIsNotEnough(db: Db, a: Uuid, other: Uuid)
    requires SameOrg(db) && a in db.applications && other != db.applications[a].org
    ensures
      var c := db.applications[a].candidate;
      && !SameOrg(db.(candidates := db.candidates[c := db.candidates[c].(org := other)]))
      && forall s :: UpdateCandidate(db, s, c, db.candidates[c].(org := other)) in {Refused, Done(db)}
  {
    var c := db.applications[a].candidate;
    var broken := db.(candidates := db.candidates[c := db.candidates[c].(org := other)]);
    assert a in broken.applications && broken.candidates[c].org == other;
    assert broken.candidates[broken.applications[a].candidate].org != broken.applications[a].org;
  }

  /** Exactly when a new application is accepted: its session belongs to the organization
      of the row, of its candidate and of its requisition; the id is new, the resume
      exists, and no application of that organization is active for the same pair. */
  lemma {:induction false} ApplicationAcceptedIff(db: Db, s: Setting, id: Uuid, row: Application)
    requires SameOrg(db)
    ensures InsertApplication(db, s, id, row).Done? <==>
      && s == Some(row.org)
      && row.candidate in db.candidates && db.candidates[row.candidate].org == row.org
      && row.requisition in db.requisitions && db.requisitions[row.requisition].org == row.org
      && id !in db.applications && row.resume in db.resumes
      && (forall a :: a in db.applications && db.applications[a].org == row.org ==>
            !BothActive(row, db.applications[a]))
  {
    if row.candidate in db.candidates && db.candidates[row.candidate].org == row.org {
      forall a | a in db.applications && BothActive(row, db.applications[a])
        ensures db.applications[a].org == row.org
      {
        assert db.candidates[db.applications[a].candidate].org == db.applications[a].org;
      }
      if id !in db.applications && ActivePairTaken(db, id, row) {
        var a :| a in db.applications && a != id && Active(db.applications[a].status)
          && db.applications[a].candidate == row.candidate && db.applications[a].requisition == row.requisition;
        assert BothActive(row, db.applications[a]);
      }
    }
  }
}
