/** What statements and transactions do to the rows: the rows of others, references between
    rows, and the rows named. */
module Statements {
  import opened Basics
  import opened Text
  import opened Encodings
  import opened Schema
  import opened SameOrganization

  // ----- the rows named -----

  const CandidateOrg: Candidate -> Uuid := (row: Candidate) => row.org
  const RequisitionOrg: Requisition -> Uuid := (row: Requisition) => row.org
  const ResumeOrg: Resume -> Uuid := (row: Resume) => row.org
  const ApplicationOrg: Application -> Uuid := (row: Application) => row.org
  const VerdictOrg: Verdict -> Uuid := (row: Verdict) => row.org

  /** A new row, entered under the organization of its session. */
  ghost predicate Added<Row(!new)>(t: map<Uuid, Row>, u: map<Uuid, Row>, orgOf: Row -> Uuid, s: Setting, id: Uuid,
                                   row: Row) {
    s == Some(orgOf(row)) && id !in t && u == t[id := row]
  }

  /** The session's own row is replaced by one of the same organization; others are not seen. */
  ghost predicate Replaced<Row(!new)>(t: map<Uuid, Row>, u: map<Uuid, Row>, orgOf: Row -> Uuid, s: Setting, id: Uuid,
                                      row: Row) {
    if id in t && s == Some(orgOf(t[id])) then orgOf(row) == orgOf(t[id]) && u == t[id := row] else u == t
  }

  /** The session's own row is gone; others are not seen. */
  ghost predicate Removed<Row(!new)>(t: map<Uuid, Row>, u: map<Uuid, Row>, orgOf: Row -> Uuid, s: Setting, id: Uuid) {
    if id in t && s == Some(orgOf(t[id])) then id !in u && u == t - {id} else u == t
  }

  /** What a statement on candidates has done, unless it was refused. */
  ghost predicate CandidateWritten(db: Db, next: Db, s: Setting, stmt: Statement)
    requires stmt.AddCandidate? || stmt.SetCandidate? || stmt.DropCandidate?
  {
    && next == db.(candidates := next.candidates)
    && match stmt
      case AddCandidate(id, row) => Added(db.candidates, next.candidates, CandidateOrg, s, id, row)
      case SetCandidate(id, row) => Replaced(db.candidates, next.candidates, CandidateOrg, s, id, row)
      case DropCandidate(id) => Removed(db.candidates, next.candidates, CandidateOrg, s, id)
  }

  lemma {:induction false} CandidateTakesEffect(db: Db, s: Setting, stmt: Statement)
    requires stmt.AddCandidate? || stmt.SetCandidate? || stmt.DropCandidate?
    ensures var r := Execute(db, s, stmt); r.Done? ==> CandidateWritten(db, r.db, s, stmt)
  {
  }

  /** What a statement on requisitions has done, unless it was refused. */
  ghost predicate RequisitionWritten(db: Db, next: Db, s: Setting, stmt: Statement)
    requires stmt.AddRequisition? || stmt.SetRequisition? || stmt.DropRequisition?
  {
    && next == db.(requisitions := next.requisitions)
    && match stmt
      case AddRequisition(id, row) => Added(db.requisitions, next.requisitions, RequisitionOrg, s, id, row)
      case SetRequisition(id, row) => Replaced(db.requisitions, next.requisitions, RequisitionOrg, s, id, row)
      case DropRequisition(id) => Removed(db.requisitions, next.requisitions, RequisitionOrg, s, id)
  }

  lemma {:induction false} RequisitionTakesEffect(db: Db, s: Setting, stmt: Statement)
    requires stmt.AddRequisition? || stmt.SetRequisition? || stmt.DropRequisition?
    ensures var r := Execute(db, s, stmt); r.Done? ==> RequisitionWritten(db, r.db, s, stmt)
  {
  }

  /** What a statement on resumes has done, unless it was refused. */
  ghost predicate ResumeWritten(db: Db, next: Db, s: Setting, stmt: Statement)
    requires stmt.AddResume? || stmt.SetResume? || stmt.DropResume?
  {
    && next == db.(resumes := next.resumes)
    && match stmt
      case AddResume(id, row) => Added(db.resumes, next.resumes, ResumeOrg, s, id, row)
      case SetResume(id, row) => Replaced(db.resumes, next.resumes, ResumeOrg, s, id, row)
      case DropResume(id) => Removed(db.resumes, next.resumes, ResumeOrg, s, id)
  }

  lemma {:induction false} ResumeTakesEffect(db: Db, s: Setting, stmt: Statement)
    requires stmt.AddResume? || stmt.SetResume? || stmt.DropResume?
    ensures var r := Execute(db, s, stmt); r.Done? ==> ResumeWritten(db, r.db, s, stmt)
  {
  }

  /** What a statement on applications has done, unless it was refused. */
  ghost predicate ApplicationWritten(db: Db, next: Db, s: Setting, stmt: Statement)
    requires stmt.AddApplication? || stmt.SetApplication? || stmt.DropApplication?
  {
    && next == db.(applications := next.applications)
    && match stmt
      case AddApplication(id, row) => Added(db.applications, next.applications, ApplicationOrg, s, id, row)
      case SetApplication(id, row) => Replaced(db.applications, next.applications, ApplicationOrg, s, id, row)
      case DropApplication(id) => Removed(db.applications, next.applications, ApplicationOrg, s, id)
  }

  lemma {:induction false} ApplicationTakesEffect(db: Db, s: Setting, stmt: Statement)
    requires stmt.AddApplication? || stmt.SetApplication? || stmt.DropApplication?
    ensures var r := Execute(db, s, stmt); r.Done? ==> ApplicationWritten(db, r.db, s, stmt)
  {
  }

  /** What a statement on verdicts has done, unless it was refused. */
  ghost predicate VerdictWritten(db: Db, next: Db, s: Setting, stmt: Statement)
    requires stmt.AddVerdict? || stmt.SetVerdict?
  {
    && next == db.(verdicts := next.verdicts)
    && match stmt
      case AddVerdict(id, row) => Added(db.verdicts, next.verdicts, VerdictOrg, s, id, row)
      case SetVerdict(id, row) => Replaced(db.verdicts, next.verdicts, VerdictOrg, s, id, row)
  }

  lemma {:induction false} VerdictTakesEffect(db: Db, s: Setting, stmt: Statement)
    requires stmt.AddVerdict? || stmt.SetVerdict?
    ensures var r := Execute(db, s, stmt); r.Done? ==> VerdictWritten(db, r.db, s, stmt)
  {
  }

  /** A statement that is not refused has done what it says, to its own table only. */
  lemma {:induction false} StatementsTakeEffect(db: Db, s: Setting, stmt: Statement)
    requires Execute(db, s, stmt).Done?
    ensures
      var next := Execute(db, s, stmt).db;
      match stmt
      case AddCandidate(_, _) => CandidateWritten(db, next, s, stmt)
      case SetCandidate(_, _) => CandidateWritten(db, next, s, stmt)
      case DropCandidate(_) => CandidateWritten(db, next, s, stmt)
      case AddRequisition(_, _) => RequisitionWritten(db, next, s, stmt)
      case SetRequisition(_, _) => RequisitionWritten(db, next, s, stmt)
      case DropRequisition(_) => RequisitionWritten(db, next, s, stmt)
      case AddResume(_, _) => ResumeWritten(db, next, s, stmt)
      case SetResume(_, _) => ResumeWritten(db, next, s, stmt)
      case DropResume(_) => ResumeWritten(db, next, s, stmt)
      case AddApplication(_, _) => ApplicationWritten(db, next, s, stmt)
      case SetApplication(_, _) => ApplicationWritten(db, next, s, stmt)
      case DropApplication(_) => ApplicationWritten(db, next, s, stmt)
      case AddVerdict(_, _) => VerdictWritten(db, next, s, stmt)
      case SetVerdict(_, _) => VerdictWritten(db, next, s, stmt)
  {
    match stmt
    case AddCandidate(_, _) => CandidateTakesEffect(db, s, stmt);
    case SetCandidate(_, _) => CandidateTakesEffect(db, s, stmt);
    case DropCandidate(_) => CandidateTakesEffect(db, s, stmt);
    case AddRequisition(_, _) => RequisitionTakesEffect(db, s, stmt);
    case SetRequisition(_, _) => RequisitionTakesEffect(db, s, stmt);
    case DropRequisition(_) => RequisitionTakesEffect(db, s, stmt);
    case AddResume(_, _) => ResumeTakesEffect(db, s, stmt);
    case SetResume(_, _) => ResumeTakesEffect(db, s, stmt);
    case DropResume(_) => ResumeTakesEffect(db, s, stmt);
    case AddApplication(_, _) => ApplicationTakesEffect(db, s, stmt);
    case SetApplication(_, _) => ApplicationTakesEffect(db, s, stmt);
    case DropApplication(_) => ApplicationTakesEffect(db, s, stmt);
    case AddVerdict(_, _) => VerdictTakesEffect(db, s, stmt);
    case SetVerdict(_, _) => VerdictTakesEffect(db, s, stmt);
  }

  // ----- other organizations -----

  /** The same rows on both sides, as far as they belong to this organization. */
  ghost predicate SameOwn<Row(!new)>(t: map<Uuid, Row>, u: map<Uuid, Row>, orgOf: Row -> Uuid, org: Uuid) {
    && (forall id :: id in t && orgOf(t[id]) == org ==> id in u && u[id] == t[id])
    && (forall id :: id in u && orgOf(u[id]) == org ==> id in t && t[id] == u[id])
  }

  /** Every row of the organization is as it was, and none was added to it. */
  ghost predicate Untouched(db: Db, next: Db, org: Uuid) {
    && SameOwn(db.candidates, next.candidates, CandidateOrg, org)
    && SameOwn(db.requisitions, next.requisitions, RequisitionOrg, org)
    && SameOwn(db.resumes, next.resumes, ResumeOrg, org)
    && SameOwn(db.applications, next.applications, ApplicationOrg, org)
    && SameOwn(db.verdicts, next.verdicts, VerdictOrg, org)
    && db.interviews == next.interviews
  }

  lemma {:induction false} CandidateOthersStay(db: Db, next: Db, s: Setting, stmt: Statement, org: Uuid)
    requires stmt.AddCandidate? || stmt.SetCandidate? || stmt.DropCandidate?
    requires s != Some(org) && CandidateWritten(db, next, s, stmt)
    ensures Untouched(db, next, org)
  {
  }

  lemma {:induction false} RequisitionOthersStay(db: Db, next: Db, s: Setting, stmt: Statement, org: Uuid)
    requires stmt.AddRequisition? || stmt.SetRequisition? || stmt.DropRequisition?
    requires s != Some(org) && RequisitionWritten(db, next, s, stmt)
    ensures Untouched(db, next, org)
  {
  }

  lemma {:induction false} ResumeOthersStay(db: Db, next: Db, s: Setting, stmt: Statement, org: Uuid)
    requires stmt.AddResume? || stmt.SetResume? || stmt.DropResume?
    requires s != Some(org) && ResumeWritten(db, next, s, stmt)
    ensures Untouched(db, next, org)
  {
  }

  lemma {:induction false} ApplicationOthersStay(db: Db, next: Db, s: Setting, stmt: Statement, org: Uuid)
    requires stmt.AddApplication? || stmt.SetApplication? || stmt.DropApplication?
    requires s != Some(org) && ApplicationWritten(db, next, s, stmt)
    ensures Untouched(db, next, org)
  {
  }

  lemma {:induction false} VerdictOthersStay(db: Db, next: Db, s: Setting, stmt: Statement, org: Uuid)
    requires stmt.AddVerdict? || stmt.SetVerdict?
    requires s != Some(org) && VerdictWritten(db, next, s, stmt)
    ensures Untouched(db, next, org)
  {
  }

  /** A statement leaves the rows of every organization but its session's as they were. */
  lemma {:induction false} OthersStay(db: Db, s: Setting, stmt: Statement, org: Uuid)
    requires s != Some(org)
    ensures var r := Execute(db, s, stmt); r.Done? ==> Untouched(db, r.db, org)
  {
    var r := Execute(db, s, stmt);
    if r.Done? {
      StatementsTakeEffect(db, s, stmt);
      match stmt
      case AddCandidate(_, _) => CandidateOthersStay(db, r.db, s, stmt, org);
      case SetCandidate(_, _) => CandidateOthersStay(db, r.db, s, stmt, org);
      case DropCandidate(_) => CandidateOthersStay(db, r.db, s, stmt, org);
      case AddRequisition(_, _) => RequisitionOthersStay(db, r.db, s, stmt, org);
      case SetRequisition(_, _) => RequisitionOthersStay(db, r.db, s, stmt, org);
      case DropRequisition(_) => RequisitionOthersStay(db, r.db, s, stmt, org);
      case AddResume(_, _) => ResumeOthersStay(db, r.db, s, stmt, org);
      case SetResume(_, _) => ResumeOthersStay(db, r.db, s, stmt, org);
      case DropResume(_) => ResumeOthersStay(db, r.db, s, stmt, org);
      case AddApplication(_, _) => ApplicationOthersStay(db, r.db, s, stmt, org);
      case SetApplication(_, _) => ApplicationOthersStay(db, r.db, s, stmt, org);
      case DropApplication(_) => ApplicationOthersStay(db, r.db, s, stmt, org);
      case AddVerdict(_, _) => VerdictOthersStay(db, r.db, s, stmt, org);
      case SetVerdict(_, _) => VerdictOthersStay(db, r.db, s, stmt, org);
    }
  }

  lemma {:induction false} UntouchedJoins(a: Db, b: Db, c: Db, org: Uuid)
    requires Untouched(a, b, org) && Untouched(b, c, org)
    ensures Untouched(a, c, org)
  {
  }

  predicate NoneUnder(stmts: seq<(Setting, Statement)>, org: Uuid) {
    forall i :: 0 <= i < |stmts| ==> stmts[i].0 != Some(org)
  }

  lemma {:induction false} OthersStayInAll(db: Db, stmts: seq<(Setting, Statement)>, org: Uuid)
    requires NoneUnder(stmts, org)
    ensures var r := ExecuteAll(db, stmts); r.Done? ==> Untouched(db, r.db, org)
    decreases |stmts|
  {
    if stmts != [] {
      var r := Execute(db, stmts[0].0, stmts[0].1);
      OthersStay(db, stmts[0].0, stmts[0].1, org);
      if r.Done? {
        OthersStayInAll(r.db, stmts[1..], org);
        if ExecuteAll(r.db, stmts[1..]).Done? {
          UntouchedJoins(db, r.db, ExecuteAll(r.db, stmts[1..]).db, org);
        }
      }
    }
  }

  /** Tenant isolation of the database alone: a history of transactions of which no statement
      runs under an organization's setting leaves all its rows as they were, and adds none. */
  lemma {:induction false} OthersStayForever(db: Db, txs: seq<Transaction>, org: Uuid)
    requires forall i :: 0 <= i < |txs| ==> NoneUnder(txs[i].statements, org)
    ensures Untouched(db, RunTransactions(db, txs), org)
    decreases |txs|
  {
    if txs != [] {
      var next := RunTransaction(db, txs[0]);
      OthersStayInAll(db, txs[0].statements, org);
      OthersStayForever(next, txs[1..], org);
      UntouchedJoins(db, next, RunTransactions(db, txs), org);
    }
  }

  // ----- references -----

  ghost predicate ResumesRefer(db: Db) {
    forall r :: r in db.resumes ==> db.resumes[r].candidate in db.candidates
  }

  ghost predicate ApplicationsRefer(db: Db) {
    forall a :: a in db.applications ==>
      var row := db.applications[a];
      row.candidate in db.candidates && row.requisition in db.requisitions && row.resume in db.resumes
  }

  ghost predicate VerdictsRefer(db: Db) {
    forall v :: v in db.verdicts ==>
      var row := db.verdicts[v];
      && row.application in db.applications
      && (row.resume.Some? ==> row.resume.value in db.resumes)
      && (row.interview.Some? ==> row.interview.value in db.interviews)
  }

  ghost predicate InterviewsRefer(db: Db) {
    forall i :: i in db.interviews ==> db.interviews[i].application in db.applications
  }

  /** Every row a row names exists. */
  ghost predicate Refer(db: Db) {
    ResumesRefer(db) && ApplicationsRefer(db) && VerdictsRefer(db) && InterviewsRefer(db)
  }

  lemma {:induction false} PutResumeRefers(db: Db, id: Uuid, row: Resume)
    requires Refer(db) && row.candidate in db.candidates
    ensures Refer(db.(resumes := db.resumes[id := row]))
  {
  }

  lemma {:induction false} DropResumeRefers(db: Db, id: Uuid)
    requires Refer(db) && (forall a :: a in db.applications ==> db.applications[a].resume != id)
    requires forall v :: v in db.verdicts ==> db.verdicts[v].resume != Some(id)
    ensures Refer(db.(resumes := db.resumes - {id}))
  {
  }

  lemma {:induction false} PutApplicationRefers(db: Db, id: Uuid, row: Application)
    requires Refer(db)
    requires row.candidate in db.candidates && row.requisition in db.requisitions && row.resume in db.resumes
    ensures Refer(db.(applications := db.applications[id := row]))
  {
  }

  lemma {:induction false} DropApplicationRefers(db: Db, id: Uuid)
    requires Refer(db) && (forall v :: v in db.verdicts ==> db.verdicts[v].application != id)
    requires forall i :: i in db.interviews ==> db.interviews[i].application != id
    ensures Refer(db.(applications := db.applications - {id}))
  {
  }

  lemma {:induction false} PutVerdictRefers(db: Db, s: Setting, id: Uuid, row: Verdict)
    requires Refer(db) && row.application in db.applications && VerdictConsistent(db, s, row)
    ensures Refer(db.(verdicts := db.verdicts[id := row]))
  {
  }

  lemma {:induction false} CandidateKeepsReferences(db: Db, s: Setting, stmt: Statement)
    requires Refer(db) && (stmt.AddCandidate? || stmt.SetCandidate? || stmt.DropCandidate?)
    ensures var r := Execute(db, s, stmt); r.Done? ==> Refer(r.db)
  {
    var r := Execute(db, s, stmt);
    CandidateTakesEffect(db, s, stmt);
  }

  lemma {:induction false} RequisitionKeepsReferences(db: Db, s: Setting, stmt: Statement)
    requires Refer(db) && (stmt.AddRequisition? || stmt.SetRequisition? || stmt.DropRequisition?)
    ensures var r := Execute(db, s, stmt); r.Done? ==> Refer(r.db)
  {
    var r := Execute(db, s, stmt);
    RequisitionTakesEffect(db, s, stmt);
  }

  lemma {:induction false} ResumeKeepsReferences(db: Db, s: Setting, stmt: Statement)
    requires Refer(db) && (stmt.AddResume? || stmt.SetResume? || stmt.DropResume?)
    ensures var r := Execute(db, s, stmt); r.Done? ==> Refer(r.db)
  {
    var r := Execute(db, s, stmt);
    if r.Done? && r.db != db {
      match stmt
      case AddResume(id, row) => PutResumeRefers(db, id, row);
      case SetResume(id, row) => PutResumeRefers(db, id, row);
      case DropResume(id) => DropResumeRefers(db, id);
    }
  }

  lemma {:induction false} ApplicationKeepsReferences(db: Db, s: Setting, stmt: Statement)
    requires Refer(db) && (stmt.AddApplication? || stmt.SetApplication? || stmt.DropApplication?)
    ensures var r := Execute(db, s, stmt); r.Done? ==> Refer(r.db)
  {
    var r := Execute(db, s, stmt);
    if r.Done? && r.db != db {
      match stmt
      case AddApplication(id, row) => PutApplicationRefers(db, id, row);
      case SetApplication(id, row) => PutApplicationRefers(db, id, row);
      case DropApplication(id) => DropApplicationRefers(db, id);
    }
  }

  lemma {:induction false} VerdictKeepsReferences(db: Db, s: Setting, stmt: Statement)
    requires Refer(db) && (stmt.AddVerdict? || stmt.SetVerdict?)
    ensures var r := Execute(db, s, stmt); r.Done? ==> Refer(r.db)
  {
    var r := Execute(db, s, stmt);
    if r.Done? && r.db != db {
      match stmt
      case AddVerdict(id, row) => PutVerdictRefers(db, s, id, row);
      case SetVerdict(id, row) => PutVerdictRefers(db, s, id, row);
    }
  }

  lemma {:induction false} StatementKeepsReferences(db: Db, s: Setting, stmt: Statement)
    requires Refer(db)
    ensures var r := Execute(db, s, stmt); r.Done? ==> Refer(r.db)
  {
    match stmt
    case AddCandidate(_, _) => CandidateKeepsReferences(db, s, stmt);
    case SetCandidate(_, _) => CandidateKeepsReferences(db, s, stmt);
    case DropCandidate(_) => CandidateKeepsReferences(db, s, stmt);
    case AddRequisition(_, _) => RequisitionKeepsReferences(db, s, stmt);
    case SetRequisition(_, _) => RequisitionKeepsReferences(db, s, stmt);
    case DropRequisition(_) => RequisitionKeepsReferences(db, s, stmt);
    case AddResume(_, _) => ResumeKeepsReferences(db, s, stmt);
    case SetResume(_, _) => ResumeKeepsReferences(db, s, stmt);
    case DropResume(_) => ResumeKeepsReferences(db, s, stmt);
    case AddApplication(_, _) => ApplicationKeepsReferences(db, s, stmt);
    case SetApplication(_, _) => ApplicationKeepsReferences(db, s, stmt);
    case DropApplication(_) => ApplicationKeepsReferences(db, s, stmt);
    case AddVerdict(_, _) => VerdictKeepsReferences(db, s, stmt);
    case SetVerdict(_, _) => VerdictKeepsReferences(db, s, stmt);
  }

  lemma {:induction false} AllKeepReferences(db: Db, stmts: seq<(Setting, Statement)>)
    requires Refer(db)
    ensures var r := ExecuteAll(db, stmts); r.Done? ==> Refer(r.db)
    decreases |stmts|
  {
    if stmts != [] {
      StatementKeepsReferences(db, stmts[0].0, stmts[0].1);
      var r := Execute(db, stmts[0].0, stmts[0].1);
      if r.Done? {
        AllKeepReferences(r.db, stmts[1..]);
      }
    }
  }

  /** No history of transactions leaves a row that names one which does not exist. */
  lemma {:induction false} ReferencesHoldForever(db: Db, txs: seq<Transaction>)
    requires Refer(db)
    ensures Refer(RunTransactions(db, txs))
    decreases |txs|
  {
    if txs != [] {
      AllKeepReferences(db, txs[0].statements);
      ReferencesHoldForever(RunTransaction(db, txs[0]), txs[1..]);
    }
  }

  // ----- which statements are accepted -----

  /** Exactly when a new candidate is accepted: only the organization's own candidates matter. */
  lemma {:induction false} CandidateAcceptedIff(db: Db, s: Setting, id: Uuid, row: Candidate)
    ensures Execute(db, s, AddCandidate(id, row)).Done? <==>
      && s == Some(row.org) && id !in db.candidates
      && forall c :: c in db.candidates && db.candidates[c].org == row.org ==> Lower(db.candidates[c].email) != Lower(row.email)
  {
    if id !in db.candidates && EmailTaken(db, id, row) {
      var c :| c in db.candidates && c != id
        && db.candidates[c].org == row.org && Lower(db.candidates[c].email) == Lower(row.email);
    }
  }

  /** What a verdict is about: its application's own resume, or an interview of the
      application; nothing else, and not both. */
  ghost predicate IsAbout(db: Db, row: Verdict, s: Setting) {
    if row.service == ResumeAnalysis then
      && row.interview == None && row.application in db.applications && s == Some(db.applications[row.application].org)
      && row.resume == Some(db.applications[row.application].resume)
    else
      && row.resume == None
      && exists i :: i in db.interviews && row.interview == Some(i) && s == Some(db.interviews[i].org)
           && db.interviews[i].application == row.application
  }

  /** Exactly when a new verdict is accepted. */
  lemma {:induction false} VerdictAcceptedIff(db: Db, s: Setting, id: Uuid, row: Verdict)
    ensures Execute(db, s, AddVerdict(id, row)).Done? <==>
      && s == Some(row.org) && id !in db.verdicts && row.application in db.applications && IsAbout(db, row, s)
      && forall v :: v in db.verdicts ==>
           db.verdicts[v].application != row.application || db.verdicts[v].service != row.service
  {
    if id !in db.verdicts && VerdictTaken(db, id, row) {
      var v :| v in db.verdicts && v != id
        && db.verdicts[v].application == row.application && db.verdicts[v].service == row.service;
    }
  }

  /** Exactly when a candidate may be rewritten: a row the session sees stays in its
      organization, and takes no email of another of its candidates. */
  lemma {:induction false} CandidateRewrittenIff(db: Db, s: Setting, id: Uuid, row: Candidate)
    ensures Execute(db, s, SetCandidate(id, row)).Done? <==>
      (id in db.candidates && s == Some(db.candidates[id].org) ==>
         && row.org == db.candidates[id].org
         && forall c :: c in db.candidates && c != id && db.candidates[c].org == row.org ==>
              Lower(db.candidates[c].email) != Lower(row.email))
  {
  }

  /** Exactly when an application may be rewritten, as by a change of its status. */
  lemma {:induction false} ApplicationRewrittenIff(db: Db, s: Setting, id: Uuid, row: Application)
    requires SameOrg(db)
    ensures Execute(db, s, SetApplication(id, row)).Done? <==>
      (id in db.applications && s == Some(db.applications[id].org) ==>
         && row.org == db.applications[id].org && row.resume in db.resumes
         && row.candidate in db.candidates && db.candidates[row.candidate].org == row.org
         && row.requisition in db.requisitions && db.requisitions[row.requisition].org == row.org
         && forall a :: a in db.applications && a != id ==> !BothActive(row, db.applications[a]))
  {
    if ActivePairTaken(db, id, row) {
      var a :| a in db.applications && a != id && Active(db.applications[a].status)
        && db.applications[a].candidate == row.candidate && db.applications[a].requisition == row.requisition;
      assert BothActive(row, db.applications[a]);
    }
  }

  /** Likewise a verdict. */
  lemma {:induction false} VerdictRewrittenIff(db: Db, s: Setting, id: Uuid, row: Verdict)
    ensures Execute(db, s, SetVerdict(id, row)).Done? <==>
      (id in db.verdicts && s == Some(db.verdicts[id].org) ==>
         && row.org == db.verdicts[id].org && row.application in db.applications && IsAbout(db, row, s)
         && forall v :: v in db.verdicts && v != id ==>
              db.verdicts[v].application != row.application || db.verdicts[v].service != row.service)
  {
  }

  /** Resumes and requisitions are free but for their organization, and a resume's candidate. */
  lemma {:induction false} OthersAcceptedIff(db: Db, s: Setting, id: Uuid, resume: Resume, requisition: Requisition)
    ensures Execute(db, s, AddResume(id, resume)).Done? <==>
      s == Some(resume.org) && id !in db.resumes && resume.candidate in db.candidates
    ensures Execute(db, s, SetResume(id, resume)).Done? <==>
      (id in db.resumes && s == Some(db.resumes[id].org) ==>
         resume.org == db.resumes[id].org && resume.candidate in db.candidates)
    ensures Execute(db, s, AddRequisition(id, requisition)).Done? <==> s == Some(requisition.org) && id !in db.requisitions
    ensures Execute(db, s, SetRequisition(id, requisition)).Done? <==>
      (id in db.requisitions && s == Some(db.requisitions[id].org) ==> requisition.org == db.requisitions[id].org)
  {
  }

  /** Exactly when a candidate goes: its session owns it, and no row refers to it. */
  lemma {:induction false} CandidateRemovedIff(db: Db, s: Setting, id: Uuid)
    requires id in db.candidates
    ensures Execute(db, s, DropCandidate(id)) == Done(db.(candidates := db.candidates - {id})) <==>
      && s == Some(db.candidates[id].org) && (forall a :: a in db.applications ==> db.applications[a].candidate != id)
      && (forall r :: r in db.resumes ==> db.resumes[r].candidate != id)
  {
    assert id !in db.candidates - {id};
  }

  /** Likewise a resume. */
  lemma {:induction false} ResumeRemovedIff(db: Db, s: Setting, id: Uuid)
    requires id in db.resumes
    ensures Execute(db, s, DropResume(id)) == Done(db.(resumes := db.resumes - {id})) <==>
      && s == Some(db.resumes[id].org) && (forall a :: a in db.applications ==> db.applications[a].resume != id)
      && (forall v :: v in db.verdicts ==> db.verdicts[v].resume != Some(id))
  {
    assert id !in db.resumes - {id};
  }

  /** And an application. */
  lemma {:induction false} ApplicationRemovedIff(db: Db, s: Setting, id: Uuid)
    requires id in db.applications
    ensures Execute(db, s, DropApplication(id)) == Done(db.(applications := db.applications - {id})) <==>
      && s == Some(db.applications[id].org) && (forall v :: v in db.verdicts ==> db.verdicts[v].application != id)
      && (forall i :: i in db.interviews ==> db.interviews[i].application != id)
  {
    assert id !in db.applications - {id};
  }

  // ----- transactions -----

  /** The states that the statements go through, none of them refused. */
  ghost predicate IsTrace(db: Db, stmts: seq<(Setting, Statement)>, states: seq<Db>) {
    && |states| == |stmts| + 1 && states[0] == db
    && forall i :: 0 <= i < |stmts| ==> Execute(states[i], stmts[i].0, stmts[i].1) == Done(states[i + 1])
  }

  /** The statements' states, as far as they go. */
  lemma {:induction false} TraceOf(db: Db, stmts: seq<(Setting, Statement)>) returns (states: seq<Db>)
    ensures ExecuteAll(db, stmts).Done? ==> IsTrace(db, stmts, states) && ExecuteAll(db, stmts).db == states[|stmts|]
    decreases |stmts|
  {
    states := [db];
    if stmts != [] && Execute(db, stmts[0].0, stmts[0].1).Done? {
      var next := Execute(db, stmts[0].0, stmts[0].1).db;
      var rest := TraceOf(next, stmts[1..]);
      states := [db] + rest;
    }
  }

  lemma {:induction false} TraceIsExecuted(db: Db, stmts: seq<(Setting, Statement)>, states: seq<Db>)
    requires IsTrace(db, stmts, states)
    ensures ExecuteAll(db, stmts) == Done(states[|stmts|])
    decreases |stmts|
  {
    if stmts != [] {
      assert Execute(states[0], stmts[0].0, stmts[0].1) == Done(states[1]);
      TraceIsExecuted(states[1], stmts[1..], states[1..]);
    }
  }

  /** All or nothing, exactly: a transaction leaves the last of its states if it commits and
      no statement was refused, and otherwise what there was before. */
  lemma {:induction false} TransactionExactly(db: Db, tx: Transaction) returns (states: seq<Db>)
    ensures (exists any: seq<Db> :: IsTrace(db, tx.statements, any)) ==> IsTrace(db, tx.statements, states)
    ensures RunTransaction(db, tx) == if tx.commits && IsTrace(db, tx.statements, states) then states[|tx.statements|] else db
  {
    states := TraceOf(db, tx.statements);
    if any: seq<Db> :| IsTrace(db, tx.statements, any) {
      TraceIsExecuted(db, tx.statements, any);
    }
    if IsTrace(db, tx.statements, states) {
      TraceIsExecuted(db, tx.statements, states);
    }
  }
}
