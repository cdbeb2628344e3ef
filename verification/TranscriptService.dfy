/** The transcript services and the embedding task, statement by statement; each is proved
    to be one or two events of the machine in `Transcripts`. */
module TranscriptService {
  import opened Basics
  import opened Encodings
  import opened Tasks
  import opened Schema
  import opened VectorStore
  import opened Externals
  import opened Embedding
  import opened Transcripts

  /** One ingest, up to and including its send. */
  function IngestRun(st: State, ext: Externals, org: Uuid, interview: Uuid, newId: Uuid, intake: Intake,
                     calls: IngestCalls):
    (State, End)
    requires UniqueInterviews(st.rows)
  {
    var (_, id, end) := Ingested(st.interviews, st.rows, org, interview, newId, intake, calls);
    if id.None? then (st, end) else
      var e := Ingest(org, interview, newId, intake, calls);
      StepKeepsInterviews(st, ext, e);
      (Step(Step(st, ext, e), ext, Send(id.value, org, calls.send)), Ask(calls.send))
  }

  /** One delivery with nothing in between. */
  function TaskRun(st: State, ext: Externals, m: Message, calls: TaskCalls): State
    requires UniqueInterviews(st.rows) && st.active == None
  {
    StepKeepsInterviews(st, ext, Start(m, calls));
    var started := Step(st, ext, Start(m, calls));
    if started.active.None? then started else Step(started, ext, Finish(calls))
  }

  /** The effect of one send on everything but the sender. */
  function Enqueued(st: State, id: Uuid, org: Uuid, call: Call): State {
    if call == Works || call == RaisesLate then Sent(st, Message(TaskKind.EmbedTranscript, id, org, 0))
    else st.(gaveUp := st.gaveUp + {(id, org)})
  }

  lemma {:induction false} IngestRunIs(st: State, ext: Externals, org: Uuid, interview: Uuid, newId: Uuid,
                                       intake: Intake,
                                       calls: IngestCalls)
    requires UniqueInterviews(st.rows) && st.sending == multiset{}
    ensures
      var (rows, id, end) := Ingested(st.interviews, st.rows, org, interview, newId, intake, calls);
      IngestRun(st, ext, org, interview, newId, intake, calls)
      == if id.None? then (st, end) else (Enqueued(st.(rows := rows), id.value, org, calls.send), Ask(calls.send))
  {
    var (rows, id, end) := Ingested(st.interviews, st.rows, org, interview, newId, intake, calls);
    if id.Some? {
      IngestEffect(st.interviews, st.rows, org, interview, newId, intake, calls);
      var ingested := st.(rows := rows, sending := multiset{(id.value, org)});
      assert Step(st, ext, Ingest(org, interview, newId, intake, calls)) == ingested;
      assert Step(ingested, ext, Send(id.value, org, calls.send)) == Enqueued(st.(rows := rows), id.value, org, calls.send);
    }
  }

  /** The effect of `embed_transcript` on the index. */
  function TaskEffect(st: State, ext: Externals, m: Message, calls: TaskCalls): (Index, End) {
    if Ask(calls.load) != Returned then (st.index, Ask(calls.load))
    else
      match TextToEmbed(st.rows, m)
      case None => (st.index, Returned)
      case Some(text) => Indexed(st.interviews, st.index, ext, m.org, m.id, st.rows[m.id].interview, text, calls.index)
  }

  lemma {:induction false} TaskRunIs(st: State, ext: Externals, m: Message, calls: TaskCalls)
    requires UniqueInterviews(st.rows) && st.active == None && m in st.queue
    ensures
      var (ix, end) := TaskEffect(st, ext, m, calls);
      TaskRun(st, ext, m, calls) == Settled(st.(index := ix), m, end, calls.ack, true)
  {
    if Ask(calls.load) == Returned && TextToEmbed(st.rows, m).Some? {
      var started := st.(active := Some(Running(m, TextToEmbed(st.rows, m).value)));
      assert Step(st, ext, Start(m, calls)) == started;
      var (ix, end) := TaskEffect(st, ext, m, calls);
      assert Step(started, ext, Finish(calls)) == Settled(started.(index := ix), m, end, calls.ack, true);
    }
  }

  class Service {
    const interviews: map<Uuid, Option<Uuid>>
    const ext: Externals
    const store: Qdrant
    var rows: Rows
    var queue: multiset<Message>
    ghost var gaveUp: set<(Uuid, Uuid)>

    constructor (interviews: map<Uuid, Option<Uuid>>, ext: Externals, store: Qdrant)
      ensures this.interviews == interviews && this.ext == ext && this.store == store
      ensures rows == map[] && queue == multiset{} && gaveUp == {}
    {
      this.interviews, this.ext, this.store := interviews, ext, store;
      rows, queue, gaveUp := map[], multiset{}, {};
    }

    ghost function Now(): State
      reads this, store
    {
      State(interviews, rows, store.index, queue, None, multiset{}, gaveUp)
    }

    method GetOrCreateTranscript(session: Rows, org: Uuid, interview: Uuid, newId: Uuid) returns (ok: bool,
                                 next: Rows, id: Uuid)
      requires UniqueInterviews(session)
      ensures
        match GotOrCreated(interviews, session, org, interview, newId)
        case Some(got) => ok && (next, id) == got
        case None => !ok
    {
      var existing := OfInterview(session, org, interview);
      if existing != {} {
        return true, session, TheOne(existing);
      }
      if newId in session || interview !in interviews || InterviewTaken(session, interview) {
        return false, session, newId;
      }
      return true, session[newId := Transcript(org, interview, Waiting, None, None, None)], newId;
    }

    /** Commit, then send: what was committed stays even if the broker refuses. */
    method FinalizeAndEnqueue(session: Rows, id: Uuid, org: Uuid, calls: IngestCalls) returns (end: End)
      requires id in session
      modifies this
      ensures
        if calls.commit != Works then end == Ask(calls.commit) && Now() == old(Now())
        else
          && end == Ask(calls.send)
          && Now() == Enqueued(old(Now()).(rows := session[id := session[id].(status := Available)]), id, org, calls.send)
    {
      var transcript := session[id].(status := Available);
      if calls.commit != Works {
        return Ask(calls.commit);
      }
      rows := session[id := transcript];
      if calls.send == Works || calls.send == RaisesLate {
        queue := queue + multiset{Message(TaskKind.EmbedTranscript, id, org, 0)};
        gaveUp := gaveUp - {(id, org)};
      } else {
        gaveUp := gaveUp + {(id, org)};
      }
      end := Ask(calls.send);
    }

    method IngestTranscriptText(org: Uuid, interview: Uuid, newId: Uuid, text: string, language: Option<string>,
                                calls: IngestCalls)
      returns (end: End)
      requires UniqueInterviews(rows)
      modifies this
      ensures (Now(), end) == IngestRun(old(Now()), ext, org, interview, newId, FromText(text, language), calls)
      ensures UniqueInterviews(rows)
    {
      IngestRunIs(Now(), ext, org, interview, newId, FromText(text, language), calls);
      IngestEffect(interviews, rows, org, interview, newId, FromText(text, language), calls);
      if Ask(calls.find) != Returned {
        return Ask(calls.find);
      }
      var ok, session, id := GetOrCreateTranscript(rows, org, interview, newId);
      if !ok {
        return Raised;
      }
      GotEffect(interviews, rows, org, interview, newId);
      var transcript := session[id].(text := Some(text));
      transcript := transcript.(language := language);
      transcript := transcript.(source := Some(PlatformProvided));
      ghost var found := session;
      session := session[id := transcript];
      assert session[id := session[id].(status := Available)] == found[id := Filled(found[id], FromText(text, language))];
      end := FinalizeAndEnqueue(session, id, org, calls);
    }

    /** The audio is transcribed first, so a failure there writes no row. */
    method IngestTranscriptAudio(org: Uuid, interview: Uuid, newId: Uuid, transcribed: string, calls: IngestCalls)
      returns (end: End)
      requires UniqueInterviews(rows)
      modifies this
      ensures (Now(), end) == IngestRun(old(Now()), ext, org, interview, newId, FromAudio(transcribed), calls)
      ensures UniqueInterviews(rows)
    {
      IngestRunIs(Now(), ext, org, interview, newId, FromAudio(transcribed), calls);
      IngestEffect(interviews, rows, org, interview, newId, FromAudio(transcribed), calls);
      if Ask(calls.transcribe) != Returned {
        return Ask(calls.transcribe);
      }
      if Ask(calls.find) != Returned {
        return Ask(calls.find);
      }
      var ok, session, id := GetOrCreateTranscript(rows, org, interview, newId);
      if !ok {
        return Raised;
      }
      GotEffect(interviews, rows, org, interview, newId);
      var transcript := session[id].(text := Some(transcribed));
      transcript := transcript.(source := Some(GeneratedStt));
      ghost var found := session;
      session := session[id := transcript];
      assert session[id := session[id].(status := Available)] == found[id := Filled(found[id], FromAudio(transcribed))];
      end := FinalizeAndEnqueue(session, id, org, calls);
    }

    /** The body of `embed_transcript`. */
    method EmbedTranscript(m: Message, calls: TaskCalls) returns (end: End)
      modifies store
      ensures (store.index, end) == TaskEffect(old(Now()), ext, m, calls)
    {
      if Ask(calls.load) != Returned {
        return Ask(calls.load);
      }
      if m.id !in rows || !Allows(Some(m.org), rows[m.id].org) {
        return Returned;
      }
      var transcript := rows[m.id];
      if transcript.text.None? || transcript.text.value == "" {
        return Returned;
      }
      if transcript.interview !in interviews || interviews[transcript.interview].None? {
        return Raised;
      }
      var candidateId := interviews[transcript.interview].value;
      end := EmbedAndUpsert(store, ext, m.org, TRANSCRIPT, m.id, candidateId, transcript.text.value, calls.index);
    }

    /** One delivery: run its task, then acknowledge, retry or give up. */
    method Deliver(m: Message, calls: TaskCalls)
      requires UniqueInterviews(rows)
      modifies this, store
      ensures Now() == TaskRun(old(Now()), ext, m, calls)
    {
      if m !in queue {
        return;
      }
      TaskRunIs(Now(), ext, m, calls);
      var end := EmbedTranscript(m, calls);
      queue := SettledQueue(queue, m, end, calls.ack);
      if GivenUp(m, end) {
        gaveUp := gaveUp + {(m.id, m.org)};
      } else if end == Returned {
        gaveUp := gaveUp - {(m.id, m.org)};
      }
    }
  }
}
