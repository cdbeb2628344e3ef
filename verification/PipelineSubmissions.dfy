/** When a submission succeeds, and what it enters: said of the rows alone. */
module PipelineSubmissions {
  import opened Basics
  import opened Text
  import opened Encodings
  import opened Tasks
  import opened Schema
  import opened SameOrganization
  import opened Pipeline
  import opened PipelineFacts
  import opened PipelineInvariants
  import PipelineTheorems
  import NonInterference

  /** The same text up to letter case. */
  predicate SameText(a: string, b: string) {
    Lower(a) == Lower(b)
  }

  /** A candidate of this organization with this email, up to case. */
  predicate IsApplicant(db: Db, org: Uuid, email: string, c: Uuid) {
    c in db.candidates && db.candidates[c].org == org && SameText(db.candidates[c].email, email)
  }

  /** An application for this requisition that is neither rejected nor withdrawn. */
  predicate IsActiveFor(db: Db, requisition: Uuid, a: Uuid) {
    && a in db.applications && db.applications[a].requisition == requisition
    && db.applications[a].status != Rejected && db.applications[a].status != Withdrawn
  }

  /** The requisition is the organization's, and this applicant has no active application
      for it. */
  ghost predicate MayApply(db: Db, sub: Submission) {
    && sub.requisition in db.requisitions && db.requisitions[sub.requisition].org == sub.org
    && forall a :: IsActiveFor(db, sub.requisition, a) ==>
         !IsApplicant(db, sub.org, sub.email, db.applications[a].candidate)
  }

  ghost predicate NewIds(db: Db, calls: SubmitCalls) {
    calls.candidate !in db.candidates && calls.resume !in db.resumes && calls.application !in db.applications
  }

  // ----- the candidate -----

  /** There is one applicant at most, and the search finds exactly that one. */
  lemma {:induction false} SearchFinds(db: Db, org: Uuid, email: string, c: Uuid)
    requires UniqueEmails(db)
    ensures IsApplicant(db, org, email, c) ==> CandidatesFor(db, org, email) == {c}
    ensures CandidatesFor(db, org, email) == {c} ==> IsApplicant(db, org, email, c)
  {
    var found := CandidatesFor(db, org, email);
    assert c in found <==> IsApplicant(db, org, email, c);
    if IsApplicant(db, org, email, c) {
      forall d | d in found
        ensures d == c
      {
        assert d in db.candidates && db.candidates[d].org == org;
      }
    }
  }

  lemma {:induction false} SearchFindsNone(db: Db, org: Uuid, email: string)
    requires forall c :: !IsApplicant(db, org, email, c)
    ensures CandidatesFor(db, org, email) == {}
  {
    forall c
      ensures c !in CandidatesFor(db, org, email)
    {
      assert !IsApplicant(db, org, email, c);
    }
  }

  function Applicant(sub: Submission): Candidate {
    Candidate(sub.org, sub.email, sub.fullName, sub.phone)
  }

  /** Get or create, exactly: a known applicant is reused, and only an unknown one added. */
  lemma {:induction false} CandidateExactly(db: Db, sub: Submission, newId: Uuid) returns (c: Uuid)
    requires UniqueEmails(db) && newId !in db.candidates
    ensures
      var (found, candidate) := CandidateStored(db, sub, newId);
      && candidate == c
      && (IsApplicant(db, sub.org, sub.email, c)
          || (c == newId && forall d :: !IsApplicant(db, sub.org, sub.email, d)))
      && found == Done(if IsApplicant(db, sub.org, sub.email, c) then db
                       else db.(candidates := db.candidates[newId := Applicant(sub)]))
  {
    if d :| IsApplicant(db, sub.org, sub.email, d) {
      c := d;
      SearchFinds(db, sub.org, sub.email, d);
      assert The({d}) == d;
    } else {
      c := newId;
      SearchFindsNone(db, sub.org, sub.email);
      NonInterference.NewCandidate(db, sub, newId);
    }
  }

  // ----- the rows -----

  /** The rows after a submission by this candidate. */
  ghost predicate Enters(db: Db, sub: Submission, calls: SubmitCalls, c: Uuid, next: Db) {
    && next == db.(candidates := next.candidates, resumes := next.resumes, applications := next.applications)
    && next.candidates == (if IsApplicant(db, sub.org, sub.email, c) then db.candidates
                           else db.candidates[calls.candidate := Applicant(sub)])
    && next.resumes == db.resumes[calls.resume :=
         Resume(sub.org, c, ObjectKey(sub.org, calls.resume, sub.filename), Uploaded, None, None, NotEmbedded, None)]
    && next.applications == db.applications[calls.application :=
         Application(sub.org, c, sub.requisition, calls.resume, Submitted)]
  }

  /** What `CandidateExactly` says of the candidate and the rows with it in place. */
  ghost predicate InPlace(db: Db, found: Db, sub: Submission, calls: SubmitCalls, c: Uuid) {
    if IsApplicant(db, sub.org, sub.email, c) then found == db
    else
      && c == calls.candidate && (forall d :: !IsApplicant(db, sub.org, sub.email, d))
      && found == db.(candidates := db.candidates[c := Applicant(sub)])
  }

  /** Another application that a new one of this candidate would clash with. */
  predicate Clashes(db: Db, requisition: Uuid, c: Uuid, a: Uuid) {
    IsActiveFor(db, requisition, a) && db.applications[a].candidate == c
  }

  predicate OwnRequisition(db: Db, sub: Submission) {
    sub.requisition in db.requisitions && db.requisitions[sub.requisition].org == sub.org
  }

  lemma {:induction false} ClashIff(db: Db, found: Db, sub: Submission, calls: SubmitCalls, c: Uuid, a: Uuid)
    requires SameOrg(db) && NewIds(db, calls) && InPlace(db, found, sub, calls, c)
    ensures
      var seen := VisibleApplication(found, sub.org, a);
      (seen.Some? && BothActive(NonInterference.NewApplication(sub, c, calls), seen.value))
      <==> Clashes(db, sub.requisition, c, a)
  {
  }

  lemma {:induction false} AcceptableUnlessClash(db: Db, found: Db, sub: Submission, calls: SubmitCalls, c: Uuid)
    requires SameOrg(db) && NewIds(db, calls) && InPlace(db, found, sub, calls, c)
    ensures NonInterference.Acceptable(found, NonInterference.NewApplication(sub, c, calls))
       <==> OwnRequisition(db, sub) && forall a :: !Clashes(db, sub.requisition, c, a)
  {
    var row := NonInterference.NewApplication(sub, c, calls);
    assert NonInterference.VisibleCandidate(found, sub.org, c).Some?;
    assert VisibleRequisition(found, sub.org, sub.requisition).Some? <==> OwnRequisition(db, sub);
    forall a
      ensures
        var seen := VisibleApplication(found, row.org, a);
        (seen.Some? && BothActive(row, seen.value)) <==> Clashes(db, sub.requisition, c, a)
    {
      ClashIff(db, found, sub, calls, c, a);
    }
  }

  /** The candidate of a clashing application is this applicant, and the other way round. */
  lemma {:induction false} ClashOfApplicant(db: Db, found: Db, sub: Submission, calls: SubmitCalls, c: Uuid, a: Uuid)
    requires Sound(db) && NewIds(db, calls) && InPlace(db, found, sub, calls, c)
    ensures Clashes(db, sub.requisition, c, a)
       <==> IsActiveFor(db, sub.requisition, a) && IsApplicant(db, sub.org, sub.email, db.applications[a].candidate)
  {
    if IsActiveFor(db, sub.requisition, a) {
      assert db.applications[a].candidate in db.candidates;
    }
  }

  /** For the rows with the candidate in place, acceptable means that it may apply. */
  lemma {:induction false} AcceptableIff(db: Db, found: Db, sub: Submission, calls: SubmitCalls, c: Uuid)
    requires Sound(db) && NewIds(db, calls) && InPlace(db, found, sub, calls, c)
    ensures NonInterference.Acceptable(found, NonInterference.NewApplication(sub, c, calls)) <==> MayApply(db, sub)
  {
    AcceptableUnlessClash(db, found, sub, calls, c);
    forall a
      ensures Clashes(db, sub.requisition, c, a)
         <==> IsActiveFor(db, sub.requisition, a) && IsApplicant(db, sub.org, sub.email, db.applications[a].candidate)
    {
      ClashOfApplicant(db, found, sub, calls, c, a);
    }
  }

  /** The rows a submission stores: refused, or exactly those. */
  lemma {:induction false} RowsExactly(db: Db, sub: Submission, calls: SubmitCalls) returns (c: Uuid)
    requires Sound(db) && NewIds(db, calls)
    ensures IsApplicant(db, sub.org, sub.email, c)
      || (c == calls.candidate && forall d :: !IsApplicant(db, sub.org, sub.email, d))
    ensures SubmissionRows(db, sub, calls).Done? <==> MayApply(db, sub)
    ensures SubmissionRows(db, sub, calls).Done? ==> Enters(db, sub, calls, c, SubmissionRows(db, sub, calls).db)
  {
    c := CandidateExactly(db, sub, calls.candidate);
    var found := CandidateStored(db, sub, calls.candidate).0.db;
    CandidateKeepsSound(db, sub, calls.candidate);
    AcceptableIff(db, found, sub, calls, c);
    NonInterference.StoredIs(found, sub, c, calls);
  }

  // ----- submit_resume -----

  lemma {:induction false} SubmitReturns(w: World, sub: Submission, calls: SubmitCalls)
    ensures SubmitRun(w, sub, calls).1 == Returned <==>
      calls.find == calls.upload == calls.commit == calls.send == Works && SubmissionRows(w.db, sub, calls).Done?
  {
    var (found, candidate) := CandidateStored(w.db, sub, calls.candidate);
    if found.Done? {
      assert SubmissionRows(w.db, sub, calls) == SubmissionStored(found.db, sub, candidate, calls);
    }
  }

  /** Exactly when a submission returns: all four calls work, the requisition is the
      organization's, and no candidate of the organization with this email, up to case, has
      an active application for it. */
  lemma {:induction false} SubmissionReturnsIff(w: World, sub: Submission, calls: SubmitCalls)
    requires Sound(w.db) && NewIds(w.db, calls)
    ensures SubmitRun(w, sub, calls).1 == Returned <==>
      calls.find == calls.upload == calls.commit == calls.send == Works && MayApply(w.db, sub)
  {
    var c := RowsExactly(w.db, sub, calls);
    SubmitReturns(w, sub, calls);
  }

  /** What a submission that returns has done: the file is stored, the parse task sent, and
      exactly the resume and the application are new, for the candidate the organization
      already had with this email, whose row is as it was, or else for a new one. */
  lemma {:induction false} SubmissionEnters(w: World, sub: Submission, calls: SubmitCalls) returns (c: Uuid)
    requires Sound(w.db) && NewIds(w.db, calls) && SubmitRun(w, sub, calls).1 == Returned
    ensures IsApplicant(w.db, sub.org, sub.email, c)
      || (c == calls.candidate && forall d :: !IsApplicant(w.db, sub.org, sub.email, d))
    ensures
      var v := SubmitRun(w, sub, calls).0;
      && Enters(w.db, sub, calls, c, v.db)
      && v.objects == w.objects[ObjectKey(sub.org, calls.resume, sub.filename) := sub.content]
      && v.queue == w.queue + multiset{Message(ParseResume, calls.resume, sub.org, 0)}
      && v.index == w.index && v.dropped == w.dropped
    ensures IsApplicant(SubmitRun(w, sub, calls).0.db, sub.org, sub.email, c)
  {
    c := RowsExactly(w.db, sub, calls);
    SubmitReturns(w, sub, calls);
    SubmitEffect(w, sub, calls);
    var v := SubmitRun(w, sub, calls).0;
    PipelineTheorems.SubmissionChangesRows(w.db, sub, calls);
  }

  /** A returning applicant is recognised: whoever has this email in the organization, up
      to case, is the candidate of the new rows, and no candidate row changes. */
  lemma {:induction false} ReturningApplicantIsReused(w: World, sub: Submission, calls: SubmitCalls, known: Uuid)
    requires Sound(w.db) && NewIds(w.db, calls) && IsApplicant(w.db, sub.org, sub.email, known)
    requires SubmitRun(w, sub, calls).1 == Returned
    ensures
      var v := SubmitRun(w, sub, calls).0;
      && v.db.candidates == w.db.candidates
      && calls.resume in v.db.resumes && v.db.resumes[calls.resume].candidate == known
      && calls.application in v.db.applications && v.db.applications[calls.application].candidate == known
  {
    var c := SubmissionEnters(w, sub, calls);
    SearchFinds(w.db, sub.org, sub.email, known);
    SearchFinds(w.db, sub.org, sub.email, c);
    assert c in CandidatesFor(w.db, sub.org, sub.email);
  }
}
