/** Transcripts: ingestion overwrites the text of an interview's one transcript, tasks
    index it some time later, and the index catches up with the latest text. */
module Transcripts {
  import opened Basics
  import opened Encodings
  import opened Tasks
  import opened Schema
  import opened VectorStore
  import opened Externals
  import opened Embedding
  import Chunking

  datatype Source = PlatformProvided | GeneratedStt
  datatype Availability = Waiting | Available | Unavailable

  datatype Transcript = Transcript(
    org: Uuid, interview: Uuid, status: Availability, source: Option<Source>, text: Option<string>, language: Option<string>)

  type Rows = map<Uuid, Transcript>

  datatype TaskKind = EmbedTranscript

  type Message = TaskMessage<TaskKind>

  /** A task that has read the text and not yet indexed it. */
  datatype Running = Running(message: Message, text: string)

  /** `interviews` says which interviews exist, and which candidate a task finds through
      the interview and its application; `None` if it does not see both. `sending` are the
      ingests between commit and send, `gaveUp` the transcripts of which a message was never
      sent or used up its attempts, with no later message, and no run that read the current
      text and returned, since. */
  datatype State = State(
    interviews: map<Uuid, Option<Uuid>>,
    rows: Rows, index: Index, queue: multiset<Message>,
    active: Option<Running>, sending: multiset<(Uuid, Uuid)>, gaveUp: set<(Uuid, Uuid)>)

  // ----- ingestion -----

  /** What to store: a text with its language, or what the audio was transcribed to. */
  datatype Intake = FromText(text: string, language: Option<string>) | FromAudio(text: string)

  datatype IngestCalls = IngestCalls(transcribe: Call, find: Call, commit: Call, send: Call)

  /** The transcripts of an interview that the session sees. */
  function OfInterview(rows: Rows, org: Uuid, interview: Uuid): set<Uuid> {
    set t | t in rows && Allows(Some(org), rows[t].org) && rows[t].interview == interview
  }

  /** `transcripts.interview_id` is unique across organizations. */
  predicate InterviewTaken(rows: Rows, interview: Uuid) {
    exists t :: t in rows && rows[t].interview == interview
  }

  function TheOne(s: set<Uuid>): (u: Uuid)
    requires s != {} && forall a, b :: a in s && b in s ==> a == b
    ensures u in s
  {
    var u :| u in s;
    u
  }

  ghost predicate UniqueInterviews(rows: Rows) {
    forall a, b :: a in rows && b in rows && a != b ==> rows[a].interview != rows[b].interview
  }

  /** `_get_or_create_transcript`: the rows after it, and the transcript; `None` if the
      INSERT is refused. */
  function GotOrCreated(interviews: map<Uuid, Option<Uuid>>, rows: Rows, org: Uuid, interview: Uuid, newId: Uuid):
    Option<(Rows, Uuid)>
    requires UniqueInterviews(rows)
  {
    var existing := OfInterview(rows, org, interview);
    if existing != {} then Some((rows, TheOne(existing)))
    else if newId in rows || interview !in interviews || InterviewTaken(rows, interview) then None
    else Some((rows[newId := Transcript(org, interview, Waiting, None, None, None)], newId))
  }

  /** The fields an ingest assigns; an audio ingest leaves the language as it is. */
  function Filled(row: Transcript, intake: Intake): Transcript {
    match intake
    case FromText(text, language) =>
      row.(text := Some(text), language := language, source := Some(PlatformProvided), status := Available)
    case FromAudio(text) => row.(text := Some(text), source := Some(GeneratedStt), status := Available)
  }

  /** The rows an ingest commits, and the transcript; `None` if it fails before that. */
  function Ingested(interviews: map<Uuid, Option<Uuid>>, rows: Rows, org: Uuid, interview: Uuid, newId: Uuid,
                    intake: Intake, calls: IngestCalls): (Rows, Option<Uuid>, End)
    requires UniqueInterviews(rows)
  {
    if intake.FromAudio? && Ask(calls.transcribe) != Returned then (rows, None, Ask(calls.transcribe))
    else if Ask(calls.find) != Returned then (rows, None, Ask(calls.find))
    else match GotOrCreated(interviews, rows, org, interview, newId)
      case None => (rows, None, Raised)
      case Some(got) =>
        if calls.commit != Works then (rows, None, Ask(calls.commit))
        else (got.0[got.1 := Filled(got.0[got.1], intake)], Some(got.1), Returned)
  }

  // ----- embed_transcript -----

  datatype TaskCalls = TaskCalls(load: Call, index: EmbedCalls, ack: Call)

  /** The text a task goes on with; `None` if there is no such row, or no text. */
  function TextToEmbed(rows: Rows, m: Message): Option<string> {
    if m.id in rows && Allows(Some(m.org), rows[m.id].org) && rows[m.id].text.Some? && rows[m.id].text.value != ""
    then rows[m.id].text else None
  }

  /** The state after an attempt, which may have read the current text. */
  function Settled(st: State, m: Message, end: End, ack: Call, current: bool): State {
    st.(queue := SettledQueue(st.queue, m, end, ack), active := None,
        gaveUp := if GivenUp(m, end) then st.gaveUp + {(m.id, m.org)}
                  else if end == Returned && current then st.gaveUp - {(m.id, m.org)}
                  else st.gaveUp)
  }

  /** The indexing half of `embed_transcript`, for the text it has read. */
  function Indexed(interviews: map<Uuid, Option<Uuid>>, ix: Index, ext: Externals, org: Uuid, id: Uuid, interview: Uuid,
                   text: string, calls: EmbedCalls): (Index, End) {
    if interview !in interviews || interviews[interview].None? then (ix, Raised)
    else SourceEmbedded(ix, ext, org, TRANSCRIPT, id, interviews[interview].value, text, calls)
  }

  // ----- the machine -----

  datatype Event =
    | Ingest(org: Uuid, interview: Uuid, newId: Uuid, intake: Intake, calls: IngestCalls)
    | Send(id: Uuid, org: Uuid, call: Call)
    | Publish(m: Message)
    | Start(m: Message, taskCalls: TaskCalls)
    | Finish(taskCalls: TaskCalls)
    | Elsewhere(org: Uuid, sourceType: string, sourceId: Uuid, candidateId: Uuid, text: string, other: EmbedCalls)
    | TearDown(org: Uuid, exists_: Call, delete: Call)

  /** The message of an ingest is on the broker, whether or not the sender learns of it. */
  function Sent(st: State, m: Message): State {
    st.(queue := st.queue + multiset{m}, gaveUp := st.gaveUp - {(m.id, m.org)})
  }

  function Step(st: State, ext: Externals, e: Event): State
    requires UniqueInterviews(st.rows)
  {
    match e
    case Ingest(org, interview, newId, intake, calls) =>
      var (rows, id, _) := Ingested(st.interviews, st.rows, org, interview, newId, intake, calls);
      if id.None? then st else st.(rows := rows, sending := st.sending + multiset{(id.value, org)})
    case Send(id, org, call) =>
      if (id, org) !in st.sending then st
      else
        var left := st.(sending := st.sending - multiset{(id, org)});
        if call == Works || call == RaisesLate then Sent(left, Message(EmbedTranscript, id, org, 0))
        else left.(gaveUp := st.gaveUp + {(id, org)})
    case Publish(m) => Sent(st, m)
    case Start(m, calls) =>
      if m !in st.queue || st.active.Some? then st
      else if Ask(calls.load) != Returned then Settled(st, m, Ask(calls.load), calls.ack, true)
      else
        (match TextToEmbed(st.rows, m)
         case None => Settled(st, m, Returned, calls.ack, true)
         case Some(text) => st.(active := Some(Running(m, text))))
    case Finish(calls) =>
      if st.active.None? || st.active.value.message.id !in st.rows then st
      else
        var m := st.active.value.message;
        var (ix, end) := Indexed(st.interviews, st.index, ext, m.org, m.id, st.rows[m.id].interview,
                                 st.active.value.text, calls.index);
        Settled(st.(index := ix), m, end, calls.ack, st.rows[m.id].text == Some(st.active.value.text))
    case Elsewhere(org, sourceType, sourceId, candidateId, text, calls) =>
      if sourceType == TRANSCRIPT then st
      else st.(index := SourceEmbedded(st.index, ext, org, sourceType, sourceId, candidateId, text, calls).0)
    case TearDown(org, exists_, delete) => st.(index := TornDown(st.index, org, exists_, delete).0)
  }

  // ----- what an ingest does to the rows -----

  /** One row changes: it belongs to the session's organization and this interview, and
      holds the new text. */
  ghost predicate OneRow(rows: Rows, next: Rows, org: Uuid, interview: Uuid, intake: Intake, id: Uuid) {
    && id in next && next == rows[id := next[id]]
    && next[id].org == org && next[id].interview == interview && next[id].text == Some(intake.text)
    && (id in rows ==> next[id] == Filled(rows[id], intake) && rows[id].org == org)
  }

  /** Found or new, there is one row for the interview, of the session's organization. */
  lemma {:induction false} GotEffect(interviews: map<Uuid, Option<Uuid>>, rows: Rows, org: Uuid, interview: Uuid,
                                     newId: Uuid)
    requires UniqueInterviews(rows) && GotOrCreated(interviews, rows, org, interview, newId).Some?
    ensures
      var (next, id) := GotOrCreated(interviews, rows, org, interview, newId).value;
      && UniqueInterviews(next) && id in next && next[id].org == org && next[id].interview == interview
      && (if id in rows then next == rows else next == rows[id := next[id]])
  {
    var existing := OfInterview(rows, org, interview);
    if existing != {} {
      assert TheOne(existing) in existing;
    }
  }

  lemma {:induction false} IngestedCases(interviews: map<Uuid, Option<Uuid>>, rows: Rows, org: Uuid, interview: Uuid,
                                         newId: Uuid, intake: Intake, calls: IngestCalls)
    requires UniqueInterviews(rows)
    ensures
      var r := Ingested(interviews, rows, org, interview, newId, intake, calls);
      var got := GotOrCreated(interviews, rows, org, interview, newId);
      || (r.0 == rows && r.1.None? && r.2 != Returned)
      || (got.Some? && r == (got.value.0[got.value.1 := Filled(got.value.0[got.value.1], intake)], Some(got.value.1), Returned))
  {
  }

  lemma {:induction false} FillKeepsInterviews(rows: Rows, id: Uuid, row: Transcript)
    requires UniqueInterviews(rows) && id in rows && row.interview == rows[id].interview
    ensures UniqueInterviews(rows[id := row])
  {
  }

  lemma {:induction false} FilledEffect(rows: Rows, mid: Rows, org: Uuid, interview: Uuid, intake: Intake, id: Uuid)
    requires UniqueInterviews(mid) && id in mid && mid[id].org == org && mid[id].interview == interview
    requires if id in rows then mid == rows else mid == rows[id := mid[id]]
    ensures
      var next := mid[id := Filled(mid[id], intake)];
      UniqueInterviews(next) && OneRow(rows, next, org, interview, intake, id)
  {
    FillKeepsInterviews(mid, id, Filled(mid[id], intake));
    assert mid[id := Filled(mid[id], intake)] == rows[id := Filled(mid[id], intake)];
  }

  lemma {:induction false} IngestEffect(interviews: map<Uuid, Option<Uuid>>, rows: Rows, org: Uuid, interview: Uuid,
                                        newId: Uuid,
                                        intake: Intake, calls: IngestCalls)
    requires UniqueInterviews(rows)
    ensures
      var (next, id, end) := Ingested(interviews, rows, org, interview, newId, intake, calls);
      && UniqueInterviews(next) && (end == Returned <==> id.Some?)
      && (id.None? ==> next == rows)
      && (id.Some? ==> OneRow(rows, next, org, interview, intake, id.value))
  {
    IngestedCases(interviews, rows, org, interview, newId, intake, calls);
    if Ingested(interviews, rows, org, interview, newId, intake, calls).1.Some? {
      var (mid, id) := GotOrCreated(interviews, rows, org, interview, newId).value;
      GotEffect(interviews, rows, org, interview, newId);
      FilledEffect(rows, mid, org, interview, intake, id);
    }
  }

  lemma {:induction false} StepKeepsInterviews(st: State, ext: Externals, e: Event)
    requires UniqueInterviews(st.rows)
    ensures UniqueInterviews(Step(st, ext, e).rows)
  {
    if e.Ingest? {
      IngestEffect(st.interviews, st.rows, e.org, e.interview, e.newId, e.intake, e.calls);
    }
  }

  function Run(st: State, ext: Externals, es: seq<Event>): State
    requires UniqueInterviews(st.rows)
    decreases |es|
  {
    if es == [] then st else
      var next := Step(st, ext, es[0]);
      StepKeepsInterviews(st, ext, es[0]);
      Run(next, ext, es[1..])
  }

  // ----- the invariant -----

  predicate HasText(row: Transcript) {
    row.text.Some? && row.text.value != ""
  }

  function Points(ix: Index, org: Uuid, id: Uuid): Collection {
    PointsOf(CollectionOf(ix, org), TRANSCRIPT, id)
  }

  /** The points of a transcript are exactly those of the chunks of this text. */
  ghost predicate IndexedAs(interviews: map<Uuid, Option<Uuid>>, ix: Index, ext: Externals, id: Uuid,
                            row: Transcript, text: string) {
    && row.interview in interviews && interviews[row.interview].Some?
    && |Vectors(ext, Chunking.Chunks(text))| == |Chunking.Chunks(text)|
    && Points(ix, row.org, id)
       == PointMap(SourcePoints(ext, row.org, TRANSCRIPT, id, interviews[row.interview].value, text))
  }

  predicate About(m: Message, id: Uuid, org: Uuid) {
    m.id == id && m.org == org
  }

  /** Something is still going to happen to a transcript, or is known to have failed. */
  ghost predicate Covered(queue: multiset<Message>, st: State, id: Uuid, org: Uuid) {
    (exists m :: m in queue && About(m, id, org)) || (id, org) in st.sending || (id, org) in st.gaveUp
  }

  /** While there is a collection, a text is indexed or something is going to happen. */
  ghost predicate RowOk(st: State, ext: Externals, id: Uuid) {
    id in st.rows && HasText(st.rows[id]) && CollectionName(st.rows[id].org) in st.index ==>
      IndexedAs(st.interviews, st.index, ext, id, st.rows[id], st.rows[id].text.value)
      || Covered(st.queue, st, id, st.rows[id].org)
  }

  /** A running task whose text is out of date is not the last one. */
  ghost predicate ActiveOk(st: State) {
    st.active.Some? ==>
      var m := st.active.value.message;
      && m in st.queue && m.id in st.rows && st.rows[m.id].org == m.org
      && (st.rows[m.id].text != Some(st.active.value.text) ==> Covered(st.queue - multiset{m}, st, m.id, m.org))
  }

  ghost predicate AllKeyed(ix: Index) {
    forall org, id :: WellKeyed(Points(ix, org, id))
  }

  /** Every point in a collection names the collection's organization. */
  ghost predicate AllOwn(ix: Index) {
    forall org :: OwnPayloads(CollectionOf(ix, org), org)
  }

  ghost predicate Ok(st: State, ext: Externals) {
    UniqueInterviews(st.rows) && AllKeyed(st.index) && AllOwn(st.index) && ActiveOk(st) && forall id :: RowOk(st, ext, id)
  }

  // ----- each event keeps it -----

  lemma {:induction false} CoveredGrows(queue: multiset<Message>, st: State, more: multiset<Message>, next: State,
                                        id: Uuid, org: Uuid)
    requires Covered(queue, st, id, org)
    requires forall m :: m in queue && About(m, id, org) ==> m in more
    requires (id, org) in st.sending ==> Covered(more, next, id, org)
    requires (id, org) in st.gaveUp ==> Covered(more, next, id, org)
    ensures Covered(more, next, id, org)
  {
    if m :| m in queue && About(m, id, org) {
      assert m in more;
    }
  }

  lemma {:induction false} IngestKeepsOk(st: State, ext: Externals, e: Event)
    requires Ok(st, ext) && e.Ingest?
    ensures Ok(Step(st, ext, e), ext)
  {
    var next := Step(st, ext, e);
    var id := Ingested(st.interviews, st.rows, e.org, e.interview, e.newId, e.intake, e.calls).1;
    IngestEffect(st.interviews, st.rows, e.org, e.interview, e.newId, e.intake, e.calls);
    if id.Some? {
      assert (id.value, e.org) in next.sending;
      forall i
        ensures RowOk(next, ext, i)
      {
        if i in st.rows && i != id.value && Covered(st.queue, st, i, st.rows[i].org) {
          CoveredGrows(st.queue, st, next.queue, next, i, st.rows[i].org);
        }
        assert RowOk(st, ext, i);
      }
      if st.active.Some? && st.active.value.message.id != id.value {
        var m := st.active.value.message;
        if Covered(st.queue - multiset{m}, st, m.id, m.org) {
          CoveredGrows(st.queue - multiset{m}, st, next.queue - multiset{m}, next, m.id, m.org);
        }
      }
    }
  }

  /** A message more: whoever was waiting for a send, or had been given up, now has it. */
  lemma {:induction false} SentKeepsOk(st: State, left: State, ext: Externals, m: Message)
    requires Ok(st, ext)
    requires left == st.(sending := left.sending)
    requires forall id, org :: (id, org) in st.sending ==> (id, org) in left.sending || About(m, id, org)
    ensures Ok(Sent(left, m), ext)
  {
    var next := Sent(left, m);
    forall i
      ensures RowOk(next, ext, i)
    {
      assert RowOk(st, ext, i);
      if i in st.rows && Covered(st.queue, st, i, st.rows[i].org) {
        assert About(m, i, st.rows[i].org) ==> m in next.queue;
        CoveredGrows(st.queue, st, next.queue, next, i, st.rows[i].org);
      }
    }
    if st.active.Some? {
      var a := st.active.value.message;
      if Covered(st.queue - multiset{a}, st, a.id, a.org) {
        assert m in next.queue - multiset{a};
        CoveredGrows(st.queue - multiset{a}, st, next.queue - multiset{a}, next, a.id, a.org);
      }
    }
  }

  /** A send that does not happen: the transcript is given up for now. */
  lemma {:induction false} UnsentKeepsOk(st: State, next: State, ext: Externals, id: Uuid, org: Uuid)
    requires Ok(st, ext)
    requires next == st.(sending := st.sending - multiset{(id, org)}, gaveUp := st.gaveUp + {(id, org)})
    ensures Ok(next, ext)
  {
    forall i
      ensures RowOk(next, ext, i)
    {
      assert RowOk(st, ext, i);
      if i in st.rows && Covered(st.queue, st, i, st.rows[i].org) {
        CoveredGrows(st.queue, st, next.queue, next, i, st.rows[i].org);
      }
    }
    if st.active.Some? {
      var a := st.active.value.message;
      if Covered(st.queue - multiset{a}, st, a.id, a.org) {
        CoveredGrows(st.queue - multiset{a}, st, next.queue - multiset{a}, next, a.id, a.org);
      }
    }
  }

  /** After an attempt that did not return, something is left for its transcript. */
  lemma {:induction false} UnfinishedIsCovered(st: State, m: Message, end: End, ack: Call, current: bool)
    requires m in st.queue && end != Returned
    ensures var next := Settled(st, m, end, ack, current); Covered(next.queue, next, m.id, m.org)
  {
    var next := Settled(st, m, end, ack, current);
    if end == Lost {
      assert m in next.queue && About(m, m.id, m.org);
    } else if m.retries < MAX_RETRIES {
      assert Again(m) in next.queue && About(Again(m), m.id, m.org);
    }
  }

  /** Settling takes away at most the message itself, and the record of giving up a
      transcript that has just been brought up to date. */
  lemma {:induction false} SettledKeepsCovered(st: State, m: Message, end: End, ack: Call, current: bool, id: Uuid,
                                               org: Uuid)
    requires
      || (Covered(st.queue - multiset{m}, st, id, org) && !(end == Returned && current))
      || (!About(m, id, org) && Covered(st.queue, st, id, org))
    ensures var next := Settled(st, m, end, ack, current); Covered(next.queue, next, id, org)
  {
    var next := Settled(st, m, end, ack, current);
    if !About(m, id, org) && Covered(st.queue, st, id, org) {
      CoveredGrows(st.queue, st, next.queue, next, id, org);
    } else {
      CoveredGrows(st.queue - multiset{m}, st, next.queue, next, id, org);
    }
  }

  /** An attempt that ends without touching the index. */
  lemma {:induction false} SettledKeepsOk(st: State, ext: Externals, m: Message, end: End, ack: Call, current: bool)
    requires Ok(st, ext) && m in st.queue && st.active.None?
    requires end == Returned ==> TextToEmbed(st.rows, m).None?
    ensures Ok(Settled(st, m, end, ack, current), ext)
  {
    var next := Settled(st, m, end, ack, current);
    forall i
      ensures RowOk(next, ext, i)
    {
      assert RowOk(st, ext, i);
      if i in st.rows && HasText(st.rows[i]) && Covered(st.queue, st, i, st.rows[i].org) {
        if About(m, i, st.rows[i].org) {
          UnfinishedIsCovered(st, m, end, ack, current);
        } else {
          SettledKeepsCovered(st, m, end, ack, current, i, st.rows[i].org);
        }
      }
    }
  }

  lemma {:induction false} StartKeepsOk(st: State, ext: Externals, m: Message, calls: TaskCalls)
    requires Ok(st, ext)
    ensures Ok(Step(st, ext, Start(m, calls)), ext)
  {
    if m in st.queue && st.active.None? {
      var text := TextToEmbed(st.rows, m);
      if Ask(calls.load) != Returned {
        SettledKeepsOk(st, ext, m, Ask(calls.load), calls.ack, true);
      } else if text.None? {
        SettledKeepsOk(st, ext, m, Returned, calls.ack, true);
      } else {
        var next := st.(active := Some(Running(m, text.value)));
        forall i
          ensures RowOk(next, ext, i)
        {
          assert RowOk(st, ext, i);
        }
      }
    }
  }

  // ----- the index -----

  /** Indexing one source leaves the points of all other transcripts as they are. */
  lemma {:induction false} OthersKeepPoints(ix: Index, ext: Externals, org: Uuid, sourceType: string, sourceId: Uuid,
                                            candidateId: Uuid, text: string, calls: EmbedCalls, other: Uuid, id: Uuid)
    requires AllKeyed(ix) && (other != org || sourceType != TRANSCRIPT || sourceId != id)
    ensures Points(SourceEmbedded(ix, ext, org, sourceType, sourceId, candidateId, text, calls).0, other, id)
         == Points(ix, other, id)
  {
    EmbeddingOutcome(ix, ext, org, sourceType, sourceId, candidateId, text, calls);
    CollectionNameInjective(org, other);
    if other == org {
      assert WellKeyed(Points(ix, org, id));
      EmbeddingLeavesOthers(ix, ext, org, sourceType, sourceId, candidateId, text, calls, TRANSCRIPT, id);
    }
  }

  lemma {:induction false} EmbeddingKeepsKeyed(ix: Index, ext: Externals, org: Uuid, sourceType: string, sourceId: Uuid,
                                               candidateId: Uuid, text: string, calls: EmbedCalls)
    requires AllKeyed(ix)
    ensures AllKeyed(SourceEmbedded(ix, ext, org, sourceType, sourceId, candidateId, text, calls).0)
  {
    var jx := SourceEmbedded(ix, ext, org, sourceType, sourceId, candidateId, text, calls).0;
    forall other, id
      ensures WellKeyed(Points(jx, other, id))
    {
      assert WellKeyed(Points(ix, other, id));
      if other != org || sourceType != TRANSCRIPT || sourceId != id {
        OthersKeepPoints(ix, ext, org, sourceType, sourceId, candidateId, text, calls, other, id);
      } else {
        EmbeddingOutcome(ix, ext, org, sourceType, sourceId, candidateId, text, calls);
        PointMapKeyed(SourcePoints(ext, org, sourceType, sourceId, candidateId, text));
      }
    }
  }

  lemma {:induction false} EmbeddingKeepsAllOwn(ix: Index, ext: Externals, org: Uuid, sourceType: string,
                                                sourceId: Uuid,
                                                candidateId: Uuid, text: string, calls: EmbedCalls)
    requires AllOwn(ix)
    ensures AllOwn(SourceEmbedded(ix, ext, org, sourceType, sourceId, candidateId, text, calls).0)
  {
    var jx := SourceEmbedded(ix, ext, org, sourceType, sourceId, candidateId, text, calls).0;
    EmbeddingOutcome(ix, ext, org, sourceType, sourceId, candidateId, text, calls);
    forall other
      ensures OwnPayloads(CollectionOf(jx, other), other)
    {
      assert OwnPayloads(CollectionOf(ix, other), other);
      CollectionNameInjective(org, other);
      if other == org {
        EmbeddingKeepsOwn(ix, ext, org, sourceType, sourceId, candidateId, text, calls);
      }
    }
  }

  lemma {:induction false} ElsewhereKeepsOk(st: State, ext: Externals, e: Event)
    requires Ok(st, ext) && e.Elsewhere?
    ensures Ok(Step(st, ext, e), ext)
  {
    if e.sourceType != TRANSCRIPT {
      var next := Step(st, ext, e);
      EmbeddingKeepsKeyed(st.index, ext, e.org, e.sourceType, e.sourceId, e.candidateId, e.text, e.other);
      EmbeddingKeepsAllOwn(st.index, ext, e.org, e.sourceType, e.sourceId, e.candidateId, e.text, e.other);
      EmbeddingOutcome(st.index, ext, e.org, e.sourceType, e.sourceId, e.candidateId, e.text, e.other);
      forall i
        ensures RowOk(next, ext, i)
      {
        assert RowOk(st, ext, i);
        if i in st.rows {
          OthersKeepPoints(st.index, ext, e.org, e.sourceType, e.sourceId, e.candidateId, e.text, e.other, st.rows[i].org, i);
        }
      }
    }
  }

  /** What the indexing half leaves, for its own transcript and for the others. */
  lemma {:induction false} IndexedEffect(st: State, ext: Externals, id: Uuid, text: string, calls: EmbedCalls)
    requires AllKeyed(st.index) && AllOwn(st.index) && id in st.rows
    ensures
      var row := st.rows[id];
      var (ix, end) := Indexed(st.interviews, st.index, ext, row.org, id, row.interview, text, calls);
      && AllKeyed(ix) && AllOwn(ix) && ix.Keys == st.index.Keys
      && (end == Returned ==> IndexedAs(st.interviews, ix, ext, id, row, text))
      && (forall i :: i in st.rows && i != id ==> Points(ix, st.rows[i].org, i) == Points(st.index, st.rows[i].org, i))
  {
    var row := st.rows[id];
    if row.interview in st.interviews && st.interviews[row.interview].Some? {
      var candidate := st.interviews[row.interview].value;
      EmbeddingKeepsKeyed(st.index, ext, row.org, TRANSCRIPT, id, candidate, text, calls);
      EmbeddingKeepsAllOwn(st.index, ext, row.org, TRANSCRIPT, id, candidate, text, calls);
      EmbeddingOutcome(st.index, ext, row.org, TRANSCRIPT, id, candidate, text, calls);
      forall i | i in st.rows && i != id
        ensures Points(SourceEmbedded(st.index, ext, row.org, TRANSCRIPT, id, candidate, text, calls).0, st.rows[i].org, i)
             == Points(st.index, st.rows[i].org, i)
      {
        OthersKeepPoints(st.index, ext, row.org, TRANSCRIPT, id, candidate, text, calls, st.rows[i].org, i);
      }
    }
  }

  lemma {:induction false} FinishedKeepsOk(st: State, after: State, ext: Externals, m: Message, text: string,
                                           end: End, ack: Call)
    requires Ok(st, ext) && st.active == Some(Running(m, text)) && after == st.(index := after.index)
    requires AllKeyed(after.index) && AllOwn(after.index) && after.index.Keys == st.index.Keys && m.id in st.rows
    requires end == Returned ==> IndexedAs(st.interviews, after.index, ext, m.id, st.rows[m.id], text)
    requires forall i :: i in st.rows && i != m.id ==>
      Points(after.index, st.rows[i].org, i) == Points(st.index, st.rows[i].org, i)
    ensures Ok(Settled(after, m, end, ack, st.rows[m.id].text == Some(text)), ext)
  {
    var current := st.rows[m.id].text == Some(text);
    var next := Settled(after, m, end, ack, current);
    forall i
      ensures RowOk(next, ext, i)
    {
      assert RowOk(st, ext, i);
      if i in st.rows && i == m.id {
        if end != Returned {
          UnfinishedIsCovered(after, m, end, ack, current);
        } else if !current {
          assert Covered(after.queue - multiset{m}, after, m.id, m.org);
          SettledKeepsCovered(after, m, end, ack, current, m.id, m.org);
        }
      } else if i in st.rows && Covered(st.queue, st, i, st.rows[i].org) {
        assert Covered(after.queue, after, i, st.rows[i].org);
        SettledKeepsCovered(after, m, end, ack, current, i, st.rows[i].org);
      }
    }
  }

  lemma {:induction false} FinishKeepsOk(st: State, ext: Externals, calls: TaskCalls)
    requires Ok(st, ext)
    ensures Ok(Step(st, ext, Finish(calls)), ext)
  {
    if st.active.Some? {
      var Running(m, text) := st.active.value;
      var row := st.rows[m.id];
      var (ix, end) := Indexed(st.interviews, st.index, ext, m.org, m.id, row.interview, text, calls.index);
      IndexedEffect(st, ext, m.id, text, calls.index);
      FinishedKeepsOk(st, st.(index := ix), ext, m, text, end, calls.ack);
    }
  }

  lemma {:induction false} SendKeepsOk(st: State, ext: Externals, id: Uuid, org: Uuid, call: Call)
    requires Ok(st, ext)
    ensures Ok(Step(st, ext, Send(id, org, call)), ext)
  {
    if (id, org) in st.sending {
      if call == Works || call == RaisesLate {
        SentKeepsOk(st, st.(sending := st.sending - multiset{(id, org)}), ext, Message(EmbedTranscript, id, org, 0));
      } else {
        UnsentKeepsOk(st, Step(st, ext, Send(id, org, call)), ext, id, org);
      }
    }
  }

  // ----- teardown -----

  /** Tearing a collection down leaves the others as they are. */
  lemma {:induction false} TornDownEffect(ix: Index, org: Uuid, exists_: Call, delete: Call, other: Uuid)
    ensures
      var jx := TornDown(ix, org, exists_, delete).0;
      && jx.Keys <= ix.Keys
      && CollectionOf(jx, other) == if CollectionName(other) in jx then CollectionOf(ix, other) else map[]
  {
  }

  lemma {:induction false} TearDownKeepsOk(st: State, ext: Externals, org: Uuid, exists_: Call, delete: Call)
    requires Ok(st, ext)
    ensures Ok(st.(index := TornDown(st.index, org, exists_, delete).0), ext)
  {
    var next := st.(index := TornDown(st.index, org, exists_, delete).0);
    forall other
      ensures OwnPayloads(CollectionOf(next.index, other), other)
    {
      assert OwnPayloads(CollectionOf(st.index, other), other);
      TornDownEffect(st.index, org, exists_, delete, other);
    }
    forall other, id
      ensures WellKeyed(Points(next.index, other, id))
    {
      assert WellKeyed(Points(st.index, other, id));
      TornDownEffect(st.index, org, exists_, delete, other);
    }
    forall i
      ensures RowOk(next, ext, i)
    {
      assert RowOk(st, ext, i);
      if i in st.rows {
        TornDownEffect(st.index, org, exists_, delete, st.rows[i].org);
      }
    }
  }

  lemma {:induction false} StepKeepsOk(st: State, ext: Externals, e: Event)
    requires Ok(st, ext)
    ensures Ok(Step(st, ext, e), ext)
  {
    match e
    case Ingest(_, _, _, _, _) => IngestKeepsOk(st, ext, e);
    case Send(id, org, call) => SendKeepsOk(st, ext, id, org, call);
    case Publish(m) => SentKeepsOk(st, st, ext, m);
    case Start(m, calls) => StartKeepsOk(st, ext, m, calls);
    case Finish(calls) => FinishKeepsOk(st, ext, calls);
    case Elsewhere(_, _, _, _, _, _) => ElsewhereKeepsOk(st, ext, e);
    case TearDown(org, exists_, delete) => TearDownKeepsOk(st, ext, org, exists_, delete);
  }

  lemma {:induction false} RunKeepsOk(st: State, ext: Externals, es: seq<Event>)
    requires Ok(st, ext)
    ensures Ok(Run(st, ext, es), ext)
    decreases |es|
  {
    if es != [] {
      StepKeepsOk(st, ext, es[0]);
      RunKeepsOk(Step(st, ext, es[0]), ext, es[1..]);
    }
  }
}
