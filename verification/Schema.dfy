/** The Postgres side: rows, row-level security, constraints and triggers, one
    statement at a time, as a session of the non-superuser application role sees them. */
module Schema {
  import opened Basics
  import opened Text
  import opened Encodings
  import opened ResumeFit

  type Bytes = seq<bv8>

  datatype Candidate = Candidate(org: Uuid, email: string, fullName: string, phone: Option<string>)

  datatype Requisition = Requisition(org: Uuid, title: string, requiredSkills: Option<seq<Json>>)

  datatype ResumeStatus = Uploaded | Parsing | Parsed | ParseFailed
  datatype EmbeddingStatus = NotEmbedded | Embedding | Embedded | EmbedFailed

  datatype Resume = Resume(
    org: Uuid, candidate: Uuid, key: string,
    status: ResumeStatus, parsedData: Option<ParsedData>, parseError: Option<string>,
    embeddingStatus: EmbeddingStatus, embeddingError: Option<string>)

  datatype ApplicationStatus = Submitted | Screening | Interviewing | Offer | Hired | Rejected | Withdrawn

  datatype Application = Application(
    org: Uuid, candidate: Uuid, requisition: Uuid, resume: Uuid, status: ApplicationStatus)

  datatype InterviewStatus = Scheduled | Completed | Cancelled | NoShow
  datatype Interview = Interview(org: Uuid, application: Uuid, status: InterviewStatus)

  datatype ServiceType = ResumeAnalysis | TranscriptReview
  datatype Label = Pass | Review | Fail

  datatype VerdictScore = ResumeScore(score: Score) | TranscriptScore(wordCount: nat, meetsMinimum: bool)

  datatype Verdict = Verdict(
    org: Uuid, application: Uuid, service: ServiceType, resume: Option<Uuid>, interview: Option<Uuid>,
    score: VerdictScore, verdictLabel: Label, narrative: string)

  datatype Db = Db(
    candidates: map<Uuid, Candidate>,
    requisitions: map<Uuid, Requisition>,
    resumes: map<Uuid, Resume>,
    applications: map<Uuid, Application>,
    interviews: map<Uuid, Interview>,
    verdicts: map<Uuid, Verdict>)

  /** `current_setting('app.current_org_id', true)`: the organization of the session, if set. */
  type Setting = Option<Uuid>

  /** Both clauses of every row-level security policy. */
  predicate Allows(s: Setting, org: Uuid) {
    s == Some(org)
  }

  /** The outcome of one statement; a refused statement raises and aborts its transaction. */
  datatype Answer = Done(db: Db) | Refused

  predicate Active(status: ApplicationStatus) {
    status != Rejected && status != Withdrawn
  }

  // ----- constraints and triggers -----

  /** `uq_candidates_org_email`, on a case-insensitive column. */
  predicate EmailTaken(db: Db, id: Uuid, row: Candidate) {
    exists c :: c in db.candidates && c != id
      && db.candidates[c].org == row.org && Lower(db.candidates[c].email) == Lower(row.email)
  }

  /** `uq_applications_active_candidate_requisition` */
  predicate ActivePairTaken(db: Db, id: Uuid, row: Application) {
    && Active(row.status)
    && (exists a :: a in db.applications && a != id && Active(db.applications[a].status)
          && db.applications[a].candidate == row.candidate && db.applications[a].requisition == row.requisition)
  }

  /** `uq_verdicts_application_service_type` */
  predicate VerdictTaken(db: Db, id: Uuid, row: Verdict) {
    exists v :: v in db.verdicts && v != id
      && db.verdicts[v].application == row.application && db.verdicts[v].service == row.service
  }

  /** What `enforce_application_org_consistency` lets through: the candidate and the
      requisition are rows the session can see, of the application's organization. */
  predicate ApplicationConsistent(db: Db, s: Setting, row: Application) {
    && row.candidate in db.candidates && row.requisition in db.requisitions
    && Allows(s, db.candidates[row.candidate].org) && Allows(s, db.requisitions[row.requisition].org)
    && db.candidates[row.candidate].org == row.org == db.requisitions[row.requisition].org
  }

  /** The trigger itself; its two queries run under the session's policies. */
  method EnforceApplicationOrgConsistency(db: Db, s: Setting, row: Application) returns (ok: bool)
    ensures ok <==> ApplicationConsistent(db, s, row)
  {
    var candidateOrg: Option<Uuid> := None;
    if row.candidate in db.candidates && Allows(s, db.candidates[row.candidate].org) {
      candidateOrg := Some(db.candidates[row.candidate].org);
    }
    var requisitionOrg: Option<Uuid> := None;
    if row.requisition in db.requisitions && Allows(s, db.requisitions[row.requisition].org) {
      requisitionOrg := Some(db.requisitions[row.requisition].org);
    }
    ok := !(Some(row.org) != candidateOrg || Some(row.org) != requisitionOrg);
  }

  /** What `enforce_verdict_consistency` lets through: exactly one of resume and
      interview, matching the service, and it is the application's own. */
  predicate VerdictConsistent(db: Db, s: Setting, row: Verdict) {
    match row.service
    case ResumeAnalysis =>
      && row.resume.Some? && row.interview.None?
      && row.application in db.applications && Allows(s, db.applications[row.application].org)
      && db.applications[row.application].resume == row.resume.value
    case TranscriptReview =>
      && row.interview.Some? && row.resume.None?
      && row.interview.value in db.interviews && Allows(s, db.interviews[row.interview.value].org)
      && db.interviews[row.interview.value].application == row.application
  }

  method EnforceVerdictConsistency(db: Db, s: Setting, row: Verdict) returns (ok: bool)
    ensures ok <==> VerdictConsistent(db, s, row)
  {
    if row.service == ResumeAnalysis {
      if row.resume.None? || !row.interview.None? {
        return false;
      }
      var matches := set a | a in db.applications && Allows(s, db.applications[a].org)
        && a == row.application && db.applications[a].resume == row.resume.value;
      if |matches| == 0 {
        assert row.application !in matches;
        return false;
      }
      var a :| a in matches;
      return true;
    } else {
      if row.interview.None? || !row.resume.None? {
        return false;
      }
      var matches := set i | i in db.interviews && Allows(s, db.interviews[i].org)
        && i == row.interview.value && db.interviews[i].application == row.application;
      if |matches| == 0 {
        assert row.interview.value !in matches;
        return false;
      }
      var i :| i in matches;
      return true;
    }
  }

  // ----- statements -----

  function InsertCandidate(db: Db, s: Setting, id: Uuid, row: Candidate): Answer {
    if !Allows(s, row.org) || id in db.candidates || EmailTaken(db, id, row) then Refused
    else Done(db.(candidates := db.candidates[id := row]))
  }

  /** An UPDATE does not see other organizations' rows, and may not move a row to one. */
  function UpdateCandidate(db: Db, s: Setting, id: Uuid, row: Candidate): Answer {
    if id !in db.candidates || !Allows(s, db.candidates[id].org) then Done(db)
    else if !Allows(s, row.org) || EmailTaken(db, id, row) then Refused
    else Done(db.(candidates := db.candidates[id := row]))
  }

  function DeleteCandidate(db: Db, s: Setting, id: Uuid): Answer {
    if id !in db.candidates || !Allows(s, db.candidates[id].org) then Done(db)
    else if (exists a :: a in db.applications && db.applications[a].candidate == id)
         || (exists r :: r in db.resumes && db.resumes[r].candidate == id) then Refused
    else Done(db.(candidates := db.candidates - {id}))
  }

  function InsertRequisition(db: Db, s: Setting, id: Uuid, row: Requisition): Answer {
    if !Allows(s, row.org) || id in db.requisitions then Refused
    else Done(db.(requisitions := db.requisitions[id := row]))
  }

  function UpdateRequisition(db: Db, s: Setting, id: Uuid, row: Requisition): Answer {
    if id !in db.requisitions || !Allows(s, db.requisitions[id].org) then Done(db)
    else if !Allows(s, row.org) then Refused
    else Done(db.(requisitions := db.requisitions[id := row]))
  }

  function DeleteRequisition(db: Db, s: Setting, id: Uuid): Answer {
    if id !in db.requisitions || !Allows(s, db.requisitions[id].org) then Done(db)
    else if exists a :: a in db.applications && db.applications[a].requisition == id then Refused
    else Done(db.(requisitions := db.requisitions - {id}))
  }

  function InsertResume(db: Db, s: Setting, id: Uuid, row: Resume): Answer {
    if !Allows(s, row.org) || id in db.resumes || row.candidate !in db.candidates then Refused
    else Done(db.(resumes := db.resumes[id := row]))
  }

  function UpdateResume(db: Db, s: Setting, id: Uuid, row: Resume): Answer {
    if id !in db.resumes || !Allows(s, db.resumes[id].org) then Done(db)
    else if !Allows(s, row.org) || row.candidate !in db.candidates then Refused
    else Done(db.(resumes := db.resumes[id := row]))
  }

  function DeleteResume(db: Db, s: Setting, id: Uuid): Answer {
    if id !in db.resumes || !Allows(s, db.resumes[id].org) then Done(db)
    else if (exists a :: a in db.applications && db.applications[a].resume == id)
         || (exists v :: v in db.verdicts && db.verdicts[v].resume == Some(id)) then Refused
    else Done(db.(resumes := db.resumes - {id}))
  }

  function InsertApplication(db: Db, s: Setting, id: Uuid, row: Application): Answer {
    if !ApplicationConsistent(db, s, row) || !Allows(s, row.org) || id in db.applications
       || row.resume !in db.resumes || ActivePairTaken(db, id, row) then Refused
    else Done(db.(applications := db.applications[id := row]))
  }

  function UpdateApplication(db: Db, s: Setting, id: Uuid, row: Application): Answer {
    if id !in db.applications || !Allows(s, db.applications[id].org) then Done(db)
    else if !ApplicationConsistent(db, s, row) || !Allows(s, row.org)
       || row.resume !in db.resumes || ActivePairTaken(db, id, row) then Refused
    else Done(db.(applications := db.applications[id := row]))
  }

  function DeleteApplication(db: Db, s: Setting, id: Uuid): Answer {
    if id !in db.applications || !Allows(s, db.applications[id].org) then Done(db)
    else if (exists v :: v in db.verdicts && db.verdicts[v].application == id)
         || (exists i :: i in db.interviews && db.interviews[i].application == id) then Refused
    else Done(db.(applications := db.applications - {id}))
  }

  function InsertVerdict(db: Db, s: Setting, id: Uuid, row: Verdict): Answer {
    if !VerdictConsistent(db, s, row) || !Allows(s, row.org) || id in db.verdicts
       || row.application !in db.applications || VerdictTaken(db, id, row) then Refused
    else Done(db.(verdicts := db.verdicts[id := row]))
  }

  function UpdateVerdict(db: Db, s: Setting, id: Uuid, row: Verdict): Answer {
    if id !in db.verdicts || !Allows(s, db.verdicts[id].org) then Done(db)
    else if !VerdictConsistent(db, s, row) || !Allows(s, row.org)
       || row.application !in db.applications || VerdictTaken(db, id, row) then Refused
    else Done(db.(verdicts := db.verdicts[id := row]))
  }
}
