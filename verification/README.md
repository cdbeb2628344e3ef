# Sift: verification of the resume pipeline

Sift accepts resumes and interview transcripts, parses, indexes and scores them, and keeps
its state in stores that share no transaction: Postgres (row-level security, constraints,
triggers), Qdrant (one collection per organization), an object store, and a Celery broker
with late acknowledgement and bounded retries. This project models that system and proves
what its protocols keep.

Every external call ends in one of four ways: it works, it raises without effect, it raises
although the remote side did the work, or the process is lost first. A commit that raises
has committed nothing. Extraction, embedding, ranking, transcription and the Judge are
uninterpreted functions that may also fail. `uuid5` is taken as injective, so a point is
addressed by the string it hashes; `uuid4` draws ids that are new in their table.

| file | what it holds |
|---|---|
| `Basics`, `Tasks`, `Externals` | call outcomes; Celery's acknowledgements and retries; the uninterpreted services and the suffix dispatch of text extraction |
| `Text`, `Encodings` | `split`/`join`/`strip`/case; point ids, collection names, object keys |
| `Chunking` | the overlapping-window loop |
| `ResumeFit` | the deterministic scorer |
| `Schema`, `SameOrganization`, `Statements` | rows, policies, constraints and triggers; invariant I3 over all histories; which statements are accepted, what they do, and whom they leave alone |
| `VectorStore`, `Embedding`, `Reembedding` | the Qdrant wrapper; delete-then-upsert; free interleavings of such runs |
| `Pipeline`, `Worker` | the pipeline as a step machine; the services and tasks as methods over mutable stores |
| `PipelineFacts`, `PipelineVerdicts`, `PipelineInvariants`, `PipelineTheorems` | what each step can do; the invariant of all runs; what follows from it |
| `PipelineSubmissions`, `PipelineRuns`, `Assessments` | exactly when a submission, a parse, an embedding and a verdict succeed, and what each leaves, said of rows and calls alone |
| `PipelineIndex`, `PipelineWitness` | what the index holds of a resume, exactly; a run that breaks its agreement with the status |
| `Delivery` | no accepted resume is lost; coming to rest |
| `NonInterference` | tenant isolation over all runs |
| `Organizations` | the organization lifecycle, one external call at a time |
| `Scorecards` | immutability, amendment and the audit log |
| `Transcripts`, `TranscriptIndex`, `TranscriptService`, `TranscriptIntake` | ingestion and indexing of transcripts; what the index holds of one, exactly; the services; exactly when they succeed |
| `TranscriptVerdicts`, `TranscriptReviews` | transcript verdicts; both kinds of verdict task together; exactly when an interview is reviewed |

`dafny verify dfyconfig.toml` checks everything.

## Where the code promises less than its documentation

Each of these is stated exactly by the lemma named.

- A submission that fails is not always without effect: rows stay behind exactly when only
  the broker failed it, and then nothing picks the resume up
  (`PipelineTheorems.FailedSubmissionLeavesRowsIff`, `Delivery.AcceptedIffEnqueued`; a
  concrete one is `PipelineWitness.FailureLeavesRows`).
- A committed `embedded` can outlive its points. One attempt breaks a fully indexed resume
  if and only if its calls empty the index and the failure is not committed, and no other
  event does (`PipelineIndex.AttemptBreaksIff`, `StepBreaksIff`); over every run the latest
  write to the index decides (`PipelineIndex.StatusAgreesWithIndex`); and a run of seven
  events from empty stores ends so, with no message left (`PipelineWitness.BrokenStateIsReachable`).
- `create_organization` says that an orphaned collection needs a failed compensation. It is
  also left when the reply to the create call is lost, or the process before the commit
  (`Organizations.CreatedIff`).
- Submitted scorecards are protected against UPDATE only; a visible DELETE loses them
  (`Scorecards.LostIffDeleted`). The protection ends with the first amendment: a statement
  changes a row without a trace if and only if it is a plain UPDATE of a row that is not
  `submitted` (`Scorecards.VanishesIff`), so contents can be lost by some history exactly
  if they are not `submitted` (`Scorecards.CanBeLostIff`).
- A transcript replaced by the empty text keeps its old points: after a smooth ingest the
  index is right if and only if the previous text had no chunks
  (`TranscriptIndex.EmptyTextIsNotIndexed`), over every run if and only if the latest write
  left none (`TranscriptIndex.AtRestIff`), and until somebody gives it a text again nothing
  removes them but the teardown of the whole collection (`TranscriptIndex.OldPointsStay`).
- The shared path of `embed_resume` and `embed_transcript` is safe under free interleaving
  only for a text that does not change: otherwise exactly if no upsert since the latest
  deletion had more chunks than the last (`Reembedding.EveryInterleaving`).
- `chunk_text` accepts negative sizes, and then loses words
  (`Chunking.NoWordLostIff` says exactly when).
- A reported ratio of 1.0 can hide missing skills from 20000 required ones on
  (`ResumeFit.FullRatioIff`).

## Model

| member | source | states |
|---|---|---|
| `Text.SplitJoin` | app/services/chunking.py:33-43 | Splitting the space-joined text of any whitespace-free words gives back those words |
| `Text.SplitKeepsLetters` | app/services/chunking.py:33 | Splitting keeps every non-space character, in order |
| `Encodings.DecimalRoundTrip` | app/services/vector_store.py:130 | Reading the printed chunk index gives the index back, so printing is injective |
| `Encodings.PointIdInjective` | app/services/vector_store.py:124-130 | Two points have the same id only if source type, source id and chunk index agree, whatever the source type contains |
| `Encodings.CollectionNameInjective` | app/services/vector_store.py:42-44 | Two organizations never share a collection name |
| `Encodings.ObjectKeyInjective` | app/services/storage.py:30-32 | An object key determines organization, resume and file name, slashes in file names included |
| `Encodings.KeyPrefixesDisjoint` | app/services/storage.py:30-32 | No file name makes the key of one resume fall under the prefix of another |
| `Encodings.SuffixOfObjectKey` | app/services/text_extraction.py:19 | The suffix computed from the whole object key is the suffix of the submitted file name, for every file name |
| `Chunking.ChunkText` | app/services/chunking.py:19-46 | The loop raises exactly if the overlap is not smaller than the size, and otherwise returns the joined windows of the words |
| `Chunking.WindowsReassemble` | app/services/chunking.py:39-45 | The first window and the new words of each later one are the input: nothing lost, doubled or moved |
| `Chunking.ChunkStringsReassemble` | app/services/chunking.py:33-46 | The same through the emitted strings: splitting and reassembling them gives `text.split()` for every text |
| `Chunking.SpanAt` | app/services/chunking.py:38-45 | Where chunk i starts and ends: all but the last have exactly the chunk size, and every later one adds a word |
| `Chunking.ChunkCount` | app/services/chunking.py:39-45 | The number of chunks in closed form, so the break on an empty window is never taken |
| `Chunking.ChunksExactly` | app/services/chunking.py:13-46 | Under the default sizes: how many chunks a text has, and that chunk i is its words from 450 i on, 500 of them or up to the end |
| `Chunking.NoWordLostIff` | app/services/chunking.py:30-46 | For all accepted sizes, negative ones included: every word is in some chunk if and only if the overlap is not negative or one window holds all |
| `ResumeFit.NormaliseIgnoresPaddingAndCase` | app/services/scoring/resume_fit.py:22-25 | Padding and case of a skill do not matter |
| `ResumeFit.NormaliseIsNormalForm` | app/services/scoring/resume_fit.py:22-25 | The normal form is exactly the text without the spaces around it, each character in lower case; so whatever differs in more than that stays apart |
| `ResumeFit.ReportedIff` | app/services/scoring/resume_fit.py:22-28 | A skill is matched if and only if some required and some resume string have it as normal form, missing if and only if only a required one has |
| `ResumeFit.ReportedRolesAndFlags` | app/services/scoring/resume_fit.py:31-42 | How many roles are reported, and exactly when each flag is set |
| `ResumeFit.SortedIsUnique` | app/services/scoring/resume_fit.py:27-28 | The sorted duplicate-free list of a set is unique, so the result is determined |
| `ResumeFit.MatchedAndMissingPartition` | app/services/scoring/resume_fit.py:22-28 | Matched and missing are sorted, duplicate-free, disjoint, and together exactly the normalised required skills |
| `ResumeFit.ScoreDependsOnSkillSets` | app/services/scoring/resume_fit.py:22-30 | Order, case, padding and repeats of skills do not change matched, missing or ratio |
| `ResumeFit.MoreSkillsNeverHurt` | app/services/scoring/resume_fit.py:22-30 | More resume skills never shrink what is matched nor lower the rounded ratio |
| `ResumeFit.RatioBounds` | app/services/scoring/resume_fit.py:29-38 | The rounded ratio lies in [0, 1] and within 1/20000 of the exact one |
| `ResumeFit.EitherRoundingIsSound` | app/services/scoring/resume_fit.py:29-38 | The same bounds, and when the ratio is 1.0, whichever neighbour an exact tie is rounded to |
| `ResumeFit.FullRatioIff` | app/services/scoring/resume_fit.py:29-38 | The ratio is 1.0 if and only if at most one required skill in 20000 is missing |
| `ResumeFit.FlagsExplainScore` | app/services/scoring/resume_fit.py:31-42 | The flags explain an empty score: no roles exactly if the history is flagged, nothing matched if the skills are |
| `Externals.ExtractionIgnoresPrefix` | app/services/text_extraction.py:12-26 | A file is extracted from under its object key as under its submitted name; exactly when extraction fails |
| `Externals.ExtractionExactly` | app/services/text_extraction.py:19-26 | Which extraction a name gets, by what follows its last dot in any case; none without a dot |
| `Schema.EnforceApplicationOrgConsistency` | alembic/versions/607fb6e98882_initial_schema.py:322-337 | The trigger lets a row through exactly if the session sees its candidate and requisition, both of its organization |
| `Schema.EnforceVerdictConsistency` | alembic/versions/5fb963736085_transcripts_and_verdicts.py:137-164 | The trigger lets a verdict through exactly if it names one subject, matching its service and belonging to its application |
| `SameOrganization.SoundForever` | alembic/versions/607fb6e98882_initial_schema.py:306-346 | I3, one candidate per organization and email, and one active application per pair hold after every history of transactions under any settings |
| `SameOrganization.OrganizationIsFixed` | alembic/versions/607fb6e98882_initial_schema.py:306-315 | No statement moves a candidate, requisition or application to another organization |
| `SameOrganization.TriggerAloneIsNotEnough` | alembic/versions/607fb6e98882_initial_schema.py:340-346 | Without the policies an update of a candidate breaks I3, since the trigger does not fire there |
| `SameOrganization.ApplicationAcceptedIff` | alembic/versions/607fb6e98882_initial_schema.py:207-213 | Exactly when a new application is accepted; only rows of its own organization matter |
| `Statements.OthersStayForever` | alembic/versions/607fb6e98882_initial_schema.py:306-315 | A history of transactions of which no statement runs under an organization's setting leaves all its rows as they were, and adds none |
| `Statements.StatementsTakeEffect` | alembic/versions/607fb6e98882_initial_schema.py:306-315 | A statement that is not refused has added, replaced or removed the row it names, if its session sees it, and nothing else |
| `Statements.ReferencesHoldForever` | alembic/versions/607fb6e98882_initial_schema.py:187-198 | After every history of transactions each row named by a resume, application, verdict or interview exists |
| `Statements.CandidateAcceptedIff` | alembic/versions/607fb6e98882_initial_schema.py:306-315 | Exactly when a new candidate is accepted; only the organization's own candidates matter |
| `Statements.ApplicationRewrittenIff` | alembic/versions/607fb6e98882_initial_schema.py:207-213 | Exactly when an update of an application is accepted |
| `Statements.VerdictAcceptedIff` | alembic/versions/5fb963736085_transcripts_and_verdicts.py:118-173 | Exactly when a new verdict is accepted: which subject it must have, for either service |
| `Statements.TransactionExactly` | app/workers/base.py:44-59 | A transaction leaves the last of the states its statements go through if it commits and none is refused, and otherwise the rows as before |
| `VectorStore.PutIsUnion` | app/services/vector_store.py:133-161 | A batch upsert overrides the collection by what the batch alone would leave |
| `VectorStore.PointMapHolds` | app/services/vector_store.py:124-161 | The chunks of one source never overwrite each other: one point per chunk, at its position |
| `VectorStore.PutLeavesOthers` | app/services/vector_store.py:133-161 | Upserting one source leaves every other source's points as they were |
| `VectorStore.OrganizationFilterIsRedundant` | app/services/vector_store.py:209-231 | If every payload names the collection's organization, filtering by it selects the same points, and a source filter exactly that source's |
| `VectorStore.FilterMeaning` | app/services/vector_store.py:211-223 | The list of conditions built in place selects what the arguments ask for |
| `VectorStore.LifecycleCallsAreIdempotent` | app/services/vector_store.py:59-99 | Provisioning never loses a point, teardown removes one collection only, and repeating either changes nothing |
| `VectorStore.Qdrant.ProvisionCollection` | app/services/vector_store.py:59-81 | An existing collection is left as it is, a missing one created empty, under every call outcome |
| `VectorStore.Qdrant.DeleteCollection` | app/services/vector_store.py:84-99 | The collection is removed, a missing one is no error, and others stay |
| `VectorStore.Qdrant.UpsertPoints` | app/services/vector_store.py:133-161 | The batch is written point by point, nothing is sent for an empty one, and a missing collection is an error |
| `VectorStore.Qdrant.DeletePointsBySource` | app/services/vector_store.py:164-187 | Exactly the points of one source are removed |
| `VectorStore.Qdrant.Search` | app/services/vector_store.py:190-231 | The eligible points are those of the organization, source type and source asked for |
| `Embedding.EmbedAndUpsert` | app/workers/tasks/embedding.py:24-46 | Chunk, embed, number, delete, upsert in this order, stopping at the first failure |
| `Embedding.EmbeddingOutcome` | app/workers/tasks/embedding.py:31-46 | One run leaves the source's old points, none, or exactly the new ones, the new ones if it returns, and no other collection changes |
| `Embedding.EmbeddingLeavesOthers` | app/workers/tasks/embedding.py:45-46 | Other sources of the collection keep their points whatever happens to the run |
| `Embedding.SourcePointsOnePerChunk` | app/workers/tasks/embedding.py:33-44 | The points of a text are one per chunk, each at its index with its text and vector |
| `Embedding.EmbeddingExactly` | app/workers/tasks/embedding.py:31-46 | Which of the three it is, and when the run returns, by how its calls end |
| `Embedding.EmbeddingKeepsOwn` | app/workers/tasks/embedding.py:33-46 | Whatever happens to a run of either kind of source, every point stays the organization's own |
| `Reembedding.LayersDecide` | app/workers/tasks/embedding.py:31-46 | Any interleaving of any number of runs with any texts, lost ones included: a source holds exactly what was upserted since its latest deletion |
| `Reembedding.EveryInterleaving` | app/workers/tasks/embedding.py:31-46 | From any collection contents: after a deletion nothing, after an upsert exactly its points if and only if no upsert since the deletion had more chunks; untouched sources keep theirs |
| `Reembedding.ReembeddingIsSafe` | app/workers/tasks/embedding.py:31-46 | For a text that is written once: whenever the latest effective operation is an upsert, the points are exactly those of the file, with no leftovers |
| `Reembedding.LeftoversCanStay` | app/workers/tasks/embedding.py:45-46 | For texts that change, two overlapping runs can leave chunks of the longer text behind |
| `Reembedding.SerialRunIsATrace` | app/workers/tasks/embedding.py:45-46 | An uninterrupted run is one such trace |
| `Worker.Worker.ParseResume` | app/workers/tasks/parsing.py:21-49 | `parse_resume` has exactly the effect of the machine's parse step on all four stores |
| `PipelineRuns.ParseRunExactly` | app/workers/tasks/parsing.py:21-49 | By how its calls end: exactly when a resume is parsed and its embedding requested, when a failure is recorded, and when nothing changes; all columns |
| `Worker.Worker.EmbedResume` | app/workers/tasks/embedding.py:49-77 | Likewise for the embed step, index writes surviving a failed commit |
| `PipelineRuns.EmbedRunExactly` | app/workers/tasks/embedding.py:49-77 | Likewise: exactly when a resume becomes embedded, when a failure is recorded, and when no row changes |
| `PipelineRuns.SmoothPipeline` | app/services/ingestion.py:46-105 | A submission that returns, whose file yields a text and whose two tasks go smoothly, ends parsed, embedded and indexed by exactly the file's points, with no message left |
| `Worker.Worker.GetOrCreateCandidate` | app/services/ingestion.py:24-43 | The candidate found for this organization and email is reused, else added |
| `Worker.Worker.SubmitResume` | app/services/ingestion.py:46-105 | The service has exactly the effect of the machine's submission step |
| `PipelineSubmissions.SubmissionReturnsIff` | app/services/ingestion.py:24-105 | A submission returns if and only if its calls work, the requisition is the organization's, and no candidate of the organization with this email, up to case, has an active application for it |
| `PipelineSubmissions.SubmissionEnters` | app/services/ingestion.py:33-105 | What one that returns has entered: one resume and one application, for the candidate with this email or else a new one, the file, and the message |
| `PipelineSubmissions.ReturningApplicantIsReused` | app/services/ingestion.py:33-38 | If a candidate of the organization has this email up to case, no candidate row changes and the new rows name that candidate |
| `Worker.Worker.UpsertVerdict` | app/workers/tasks/verdicts.py:43-82 | The one row there is gets overwritten in place, else one is added; more than one raises |
| `Worker.Worker.GenerateResumeVerdict` | app/workers/tasks/verdicts.py:85-136 | Score, retrieve, judge, store: exactly the machine's verdict step |
| `Worker.Worker.Deliver` | app/workers/base.py:27-41 | A delivery runs its task, then acknowledges late, retries at most three times, or gives up |
| `PipelineVerdicts.VerdictForFacts` | app/workers/tasks/verdicts.py:88-136 | What a task wants to store carries the scorer's value on the data it read, and the Judge's answer to that very score |
| `Assessments.VerdictIff` | app/workers/tasks/verdicts.py:85-136 | Exactly when a task has a verdict to store, by the rows it sees and how its calls end, with the query it asks; and the whole row |
| `Assessments.VerdictRunExactly` | app/workers/tasks/verdicts.py:85-136 | Exactly when a run returns, when it stores a verdict, and what is then stored: the fit, and the Judge's answer to it, the resume's own texts and the title; otherwise nothing changes |
| `Assessments.ContextIs` | app/workers/tasks/verdicts.py:106-113 | Retrieval succeeds if and only if there is no query vector or a collection that answers, and gives the texts of the source's own points as ranked |
| `PipelineVerdicts.VerdictNeverRefused` | app/workers/tasks/verdicts.py:57-80 | Trigger, policies and uniqueness never refuse a resume verdict; it overwrites the application's one row or adds it |
| `PipelineVerdicts.VerdictIsStored` | app/workers/tasks/verdicts.py:125-136 | After the commit exactly that assessment is the application's verdict, and every other verdict is as before |
| `PipelineInvariants.HealthyForever` | app/workers/tasks/embedding.py:49-77 | Rows, files, collections, applications and verdicts stay consistent over all runs of submissions, published messages, deliveries, teardowns and transcript indexing |
| `PipelineIndex.StatusAgreesWithIndex` | app/workers/tasks/embedding.py:56-77 | In every reachable state the index holds all chunks of a resume's own file or none; an `embedded` resume is fully indexed if and only if the latest write was a full one or there is nothing to index, and otherwise a task for it is waiting or was used up since the latest full write |
| `PipelineIndex.AttemptBreaksIff` | app/workers/tasks/embedding.py:59-77 | Exactly which call outcomes of one attempt leave a fully indexed, `embedded` resume `embedded` but not indexed |
| `PipelineIndex.StepBreaksIff` | app/workers/tasks/embedding.py:59-77 | The same for every event: nothing but such an attempt at this resume breaks it |
| `PipelineWitness.RetriesCanLoseTheIndex` | app/workers/base.py:36-41 | Four such attempts use up the message, so nothing repairs it |
| `PipelineWitness.BrokenStateIsReachable` | app/workers/tasks/embedding.py:69-77 | A concrete run of seven events from empty stores: an `embedded` resume with no points and no message left |
| `PipelineTheorems.NeverStuck` | app/workers/tasks/parsing.py:28-44 | `parsing` and `embedding` are never committed; a parsed resume has the extractor's value and no error, a failed one its error |
| `PipelineTheorems.SearchStaysHome` | app/services/vector_store.py:145-231 | In every reachable state of collections that hold resumes and transcripts, every point is its organization's, every resume point of one of its resumes, the redundant filter is redundant, and a source filter selects that source |
| `PipelineTheorems.SubmissionIntegrity` | app/services/ingestion.py:66-97 | In every reachable state an application, its resume, candidate and requisition agree; emails and active pairs are unique |
| `PipelineTheorems.VerdictsAreSound` | app/workers/tasks/verdicts.py:43-136 | In every reachable state there is one verdict per application and service, about that application's resume, with a value of the scorer, narrated from it |
| `PipelineTheorems.FilesAreKept` | app/services/ingestion.py:74-76 | A committed resume keeps its file, candidate and organization over every run |
| `PipelineTheorems.SubmittedBytesAreKept` | app/services/ingestion.py:74-97 | The submitted bytes stay readable under the row's key in every later state |
| `PipelineTheorems.FailedSubmissionLeavesRowsIff` | app/services/ingestion.py:66-105 | A failed submission leaves rows if and only if everything up to the commit worked; otherwise at most an object |
| `PipelineWitness.FailureLeavesRows` | app/services/ingestion.py:97-103 | A concrete submission that fails at the broker and leaves its three rows behind |
| `Delivery.NoResumeIsLost` | app/workers/tasks/parsing.py:21-49 | An accepted resume has a message pending, a final status, or a record of used-up attempts, in every later state |
| `Delivery.AcceptedIffEnqueued` | app/services/ingestion.py:97-103 | A committed submission is accounted for if and only if its message reached the broker |
| `Delivery.ComesToRest` | app/workers/base.py:36-41 | Without worker losses the number of deliveries is bounded by a measure on remaining attempts |
| `Delivery.AtRest` | app/workers/tasks/parsing.py:21-49 | With nothing pending, every accepted resume has a final status or a record of used-up attempts |
| `NonInterference.StepSame` | app/workers/base.py:44-59 | An organization's own step takes states that look the same to it to states that look the same |
| `NonInterference.StepUnseen` | alembic/versions/607fb6e98882_initial_schema.py:306-315 | Nobody else's step changes anything it can see: rows, collection, objects, messages |
| `NonInterference.OthersDoNotMatter` | app/workers/base.py:44-59 | After any run of any organizations' steps, foreign task ids included, an organization sees what it would see had the others done nothing |
| `Organizations.StoresAgree` | app/services/organizations.py:52-101 | In every intermediate state of any interleaving, an organization that is not deactivated has its collection, and a collection without a row is empty |
| `Organizations.TornDownForever` | app/services/organizations.py:96-100 | A collection that disappeared never reappears |
| `Organizations.WriteExactly` | app/services/vector_store.py:133-161 | A worker's write reaches its organization's own collection if there is one, and no other |
| `Organizations.OrganizationService.CreateOrganization` | app/services/organizations.py:21-72 | Collection first, then row; a failed commit is compensated as far as possible |
| `Organizations.OrganizationService.DeactivateOrganization` | app/services/organizations.py:80-101 | Row first, then collection; an unknown organization is reported absent |
| `Organizations.CreatedIff` | app/services/organizations.py:52-69 | Exactly when a creation succeeds, and exactly when a failed one leaves an orphaned, empty collection |
| `Organizations.ClosedIff` | app/services/organizations.py:92-101 | Exactly when a deactivation marks the row and when the collection lingers |
| `Organizations.CreateIsARun` | app/services/organizations.py:52-72 | The service is one run of its calls in the interleaving machine |
| `Organizations.CloseIsARun` | app/services/organizations.py:92-101 | Likewise for deactivation |
| `Scorecards.SubmittedChangesAreRecorded` | alembic/versions/607fb6e98882_initial_schema.py:351-404 | What trigger and procedure secure together: a submitted row changes only by an amendment, with an entry that holds it before and after |
| `Scorecards.Session.AmendScorecard` | alembic/versions/607fb6e98882_initial_schema.py:374-402 | Flag, update, flag, audit entry: the row is amended and the entry holds the row before and after; the flag is down afterwards |
| `Scorecards.AmendmentExactly` | alembic/versions/607fb6e98882_initial_schema.py:374-402 | An amendment succeeds if and only if the session sees the row and the actor exists; then exactly the new row, with its ratings and notes, and one entry |
| `Scorecards.InsertionExactly` | alembic/versions/607fb6e98882_initial_schema.py:306-315 | Exactly when a new scorecard is accepted, and that it is then the one new row |
| `Scorecards.UpdateExactly` | alembic/versions/607fb6e98882_initial_schema.py:351-365 | Exactly when a plain update is accepted, and what it leaves |
| `Scorecards.DeletionExactly` | alembic/versions/607fb6e98882_initial_schema.py:306-315 | A DELETE removes exactly the row its session sees, and leaves the log alone |
| `Scorecards.EntriesNeverChange` | alembic/versions/607fb6e98882_initial_schema.py:407-424 | No statement changes or removes an audit entry |
| `Scorecards.NeverSilentlyLost` | alembic/versions/607fb6e98882_initial_schema.py:351-424 | Over every history of transactions, aborted ones included: the audit log only grows, the flag is down, and a submitted scorecard is still there or recorded as what was replaced, unless deleted |
| `Scorecards.LostIffDeleted` | alembic/versions/607fb6e98882_initial_schema.py:367-371 | One statement loses a submitted scorecard if and only if it is a DELETE its session may make |
| `Scorecards.VanishesIff` | alembic/versions/607fb6e98882_initial_schema.py:355-358 | A statement changes a row without a trace if and only if it is a plain UPDATE, by its organization, of a row that is not submitted |
| `Scorecards.CanBeLostIff` | alembic/versions/607fb6e98882_initial_schema.py:351-424 | Some history without deletions loses given contents without a trace if and only if they are not submitted |
| `Scorecards.OnlyUnsubmittedVanish` | alembic/versions/607fb6e98882_initial_schema.py:351-424 | Of all contents a row has had in a history without deletions, only unsubmitted ones can have vanished |
| `Transcripts.IngestEffect` | app/services/transcripts.py:22-47 | An ingest changes one row, the interview's only one, of the session's organization; a failed one changes none |
| `TranscriptIntake.IngestExactly` | app/services/transcripts.py:22-91 | An ingest commits a transcript if and only if its calls work and the session sees one of the interview, or the interview exists, nobody has one and the id is new; then exactly which row with which contents |
| `TranscriptIntake.ServiceExactly` | app/services/transcripts.py:50-91 | Likewise for the whole service: exactly when it returns, the rows and the queue after it, and that a committed row stays if the send fails |
| `TranscriptIntake.DeliveryIndexes` | app/workers/tasks/embedding.py:85-104 | A delivery that goes smoothly leaves the transcript indexed as its text and the message gone; any other leaves something to do it, or a record |
| `TranscriptIndex.IndexCatchesUp` | app/services/transcripts.py:36-91 | In every reachable state in which the organization has its collection, a non-empty text is indexed, or a task is queued, or an ingest is about to send, or a message was given up and nothing has made up for it since |
| `TranscriptIndex.AtRestIndexed` | app/workers/tasks/embedding.py:85-104 | With everything of a transcript worked off its points are exactly one per chunk of the latest text, or none if the collection was torn down |
| `TranscriptIndex.HoldsLatestWrite` | app/workers/tasks/embedding.py:85-104 | In every reachable state the index holds exactly the chunks of the text the latest effective run wrote, or nothing, as after a teardown |
| `TranscriptIndex.AtRestIff` | app/workers/tasks/embedding.py:93-95 | At rest the points match the text if and only if it is not empty or the latest run that wrote them left none; after a teardown, if and only if the text has no chunks |
| `TranscriptIndex.EmptyTextIsNotIndexed` | app/workers/tasks/embedding.py:93-95 | After a smooth ingest of the empty text the index is as before, so it is right if and only if the previous text had no chunks |
| `TranscriptIndex.OldPointsStay` | app/workers/tasks/embedding.py:93-95 | Until the transcript is given a text again, no run removes the old points but by tearing the collection down |
| `TranscriptIndex.SharedSearchStaysHome` | app/services/vector_store.py:145-231 | The filter and source results for collections that transcripts share; every transcript point belongs to a transcript of the organization |
| `TranscriptService.Service.IngestTranscriptText` | app/services/transcripts.py:50-65 | The service is the machine's ingest and send |
| `TranscriptService.Service.IngestTranscriptAudio` | app/services/transcripts.py:68-91 | Likewise; a failed transcription writes no row, and the language stays |
| `TranscriptService.Service.Deliver` | app/workers/tasks/embedding.py:85-104 | One delivery is the machine's start and finish |
| `TranscriptVerdicts.TranscriptWorker.GenerateTranscriptVerdict` | app/workers/tasks/verdicts.py:144-193 | Only a completed interview with a text is reviewed, and the verdict stored |
| `TranscriptVerdicts.ReviewFacts` | app/workers/tasks/verdicts.py:152-193 | The interview is completed when the row is written, the score is the scorer's value on the text read, the narrative the Judge's answer to it |
| `TranscriptReviews.ReviewIff` | app/workers/tasks/verdicts.py:144-193 | Exactly when a task has a verdict to store: the interview is completed, its transcript has a text, and its calls work; and the whole row |
| `TranscriptReviews.ReviewRunExactly` | app/workers/tasks/verdicts.py:144-193 | Exactly when such a verdict is stored, and what; otherwise nothing changes |
| `TranscriptReviews.ScoreCountsWords` | app/services/scoring/transcript_review.py:20-33 | The words of a text written as words are counted, and two hundred meet the minimum |
| `TranscriptVerdicts.TriggerNeverFires` | alembic/versions/5fb963736085_transcripts_and_verdicts.py:135-173 | Whatever either task wants to store passes the trigger, in any state |
| `TranscriptVerdicts.StoredUnlessBlocked` | app/workers/tasks/verdicts.py:57-80 | Exactly when a verdict cannot be stored, and otherwise which row is written |
| `TranscriptVerdicts.WishesAreAssessments` | app/workers/tasks/verdicts.py:85-193 | What either task wants to store is the scorer's value on the rows it read, with the Judge's answer to it |
| `TranscriptVerdicts.VerdictsStaySound` | alembic/versions/5fb963736085_transcripts_and_verdicts.py:118-173 | Over any run of both tasks with other rows changing in between: one verdict per application and service, of the right shape, with a value of its scorer, narrated from it |
| `TranscriptVerdicts.VerdictsComeFromTasks` | app/workers/tasks/verdicts.py:43-193 | Every verdict of such a run is, unchanged, what one task of the run wanted to store on the rows it read then |

## Left out

- `PipelineIndex.StatusAgreesWithIndex`: says nothing of an organization whose collection was torn down.
- `NonInterference.OthersDoNotMatter`: covers what transcript tasks write to the collections, but not transcript rows, whose foreign key and uniqueness act across organizations, nor organizations created during the run.
- `TranscriptIndex.IndexCatchesUp`: tasks run one at a time, and an interview's application and candidate do not change during a run.
- `TranscriptVerdicts.VerdictsStaySound`: says nothing of the organization of a transcript verdict's application; nothing in the repository creates interviews or checks theirs.
- `ResumeFit.RatioBounds`: the model rounds the exact quotient half to even. Python rounds the binary quotient, which an exact tie can take to either side, as for 1 of 160 skills; `ResumeFit.EitherRoundingIsSound` holds of both, but which one is taken is not modelled.
- `ResumeFit.NormaliseIgnoresPaddingAndCase`: case folding is ASCII only, while stripping knows all Unicode spaces; over all of Unicode case does matter, as for a sharp s, whose capitals fold to two letters.
- `Scorecards.NeverSilentlyLost`: sessions do not set the amend flag themselves, which whoever may call `set_config` could, and do not TRUNCATE, which passes row triggers and policies.
- Deliveries are atomic towards Postgres rows: runs on one resume are serialised. Only the index operations, and the calls of the organization services, interleave freely.
- Runs of the pipeline and of transcripts start with their collections in place and may tear them down; provisioning is in `Organizations`, where a collection torn down never reappears.
- A commit is the one atomic point; refreshing a row after it, and a failure of that refresh, are not modelled.
- The publication of a Celery retry is taken to succeed together with the acknowledgement's absence; retry delays are not modelled.
- JSON is modelled as far as the scorer reads it: lists of strings and other values, present or absent; a truthy value that is no list is not.
- Payload strings that are no UUIDs, `embedded_at`, `crew_run`, `generated_at`, `stale` and other timestamps.
- Qdrant's ranking and its limit of five or ten results: the model decides which points are eligible.
- The development role that bypasses row-level security, and the foreign key to `organizations`.
- FastAPI routes, JWT and magic links, settings, migrations' plumbing, HR users, requisition status, assignments, application transitions, deletion and summaries.
