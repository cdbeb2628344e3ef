/** Delivery guarantees of the resume pipeline: no accepted resume is lost, and without
    worker losses everything comes to rest. */
module Delivery {
  import opened Basics
  import opened Encodings
  import opened Tasks
  import opened Schema
  import opened Externals
  import opened Pipeline
  import opened PipelineFacts

  /** A parse or embed message for this resume. */
  predicate About(m: Message, org: Uuid, id: Uuid) {
    m.kind != ResumeVerdict && m.org == org && m.id == id
  }

  ghost predicate Pending(q: multiset<Message>, org: Uuid, id: Uuid) {
    exists m :: m in q && About(m, org, id)
  }

  predicate Final(row: Resume) {
    row.status == ParseFailed || row.embeddingStatus == Embedded || row.embeddingStatus == EmbedFailed
  }

  /** The resume is still being worked on, has reached a final status, or is on record as
      having used up its attempts. */
  ghost predicate Accounted(w: World, id: Uuid) {
    && id in w.db.resumes
    && (Pending(w.queue, w.db.resumes[id].org, id)
        || Pending(w.dropped, w.db.resumes[id].org, id)
        || Final(w.db.resumes[id]))
  }

  /** What an attempt never takes away: messages, failure records, and other resumes. */
  ghost predicate Keeps(w: World, v: World, m: Message) {
    && w.queue <= v.queue
    && v.dropped == w.dropped
    && (forall id :: id in w.db.resumes ==>
          id in v.db.resumes && v.db.resumes[id].org == w.db.resumes[id].org
          && (About(m, w.db.resumes[id].org, id) || v.db.resumes[id] == w.db.resumes[id]))
  }

  /** A task that returns normally has handed its resume on or brought it to an end. */
  ghost predicate HandedOn(w: World, v: World, m: Message) {
    m.id in w.db.resumes && About(m, w.db.resumes[m.id].org, m.id) ==>
      m.id in v.db.resumes && (Final(v.db.resumes[m.id]) || (m.kind == ParseResume && EmbedMessage(m) in v.queue))
  }

  lemma {:induction false} ParseKeeps(w: World, ext: Externals, m: Message, calls: TaskCalls, v: World, end: End)
    requires m.kind == ParseResume && ParseCases(w, ext, m, calls, v, end)
    ensures Keeps(w, v, m) && (end == Returned ==> HandedOn(w, v, m))
  {
  }

  lemma {:induction false} EmbedKeeps(w: World, ext: Externals, m: Message, calls: TaskCalls, v: World, end: End)
    requires m.kind == EmbedResume && EmbedCases(w, ext, m, calls, v, end)
    ensures Keeps(w, v, m) && (end == Returned ==> HandedOn(w, v, m))
  {
  }

  lemma {:induction false} TaskKeeps(w: World, ext: Externals, m: Message, calls: TaskCalls)
    ensures
      var (v, end) := TaskRun(w, ext, m, calls);
      Keeps(w, v, m) && (end == Returned ==> HandedOn(w, v, m))
  {
    var (v, end) := TaskRun(w, ext, m, calls);
    match m.kind
    case ParseResume =>
      ParseEffect(w, ext, m, calls);
      ParseKeeps(w, ext, m, calls, v, end);
    case EmbedResume =>
      EmbedEffect(w, ext, m, calls);
      EmbedKeeps(w, ext, m, calls, v, end);
    case ResumeVerdict => VerdictEffect(w, ext, m, calls);
  }

  lemma {:induction false} PendingGrows(q: multiset<Message>, r: multiset<Message>, org: Uuid, id: Uuid)
    requires q <= r
    ensures Pending(q, org, id) ==> Pending(r, org, id)
  {
    if Pending(q, org, id) {
      var m :| m in q && About(m, org, id);
      assert m in r;
    }
  }

  /** The delivered message's own resume. */
  lemma {:induction false} OwnStaysAccounted(w: World, v: World, m: Message, end: End, ack: Call, id: Uuid)
    requires id in w.db.resumes && About(m, w.db.resumes[id].org, id) && m in w.queue
    requires Keeps(w, v, m) && (end == Returned ==> HandedOn(w, v, m))
    ensures Accounted(Settled(v, m, end, ack), id)
  {
    var u := Settled(v, m, end, ack);
    var org := w.db.resumes[id].org;
    if end == Lost {
      assert m in u.queue;
    } else if end == Raised && m.retries < MAX_RETRIES {
      assert Again(m) in u.queue && About(Again(m), org, id);
    } else if end == Raised {
      assert m in u.dropped;
    } else if !Final(v.db.resumes[id]) {
      assert EmbedMessage(m) in u.queue && About(EmbedMessage(m), org, id);
    }
  }

  lemma {:induction false} OtherStaysPending(q: multiset<Message>, r: multiset<Message>, m: Message, end: End,
                                             ack: Call,
                                             org: Uuid, id: Uuid)
    requires Pending(q, org, id) && q <= r && !About(m, org, id)
    ensures Pending(SettledQueue(r, m, end, ack), org, id)
  {
    var x :| x in q && About(x, org, id);
    assert x in r && x in SettledQueue(r, m, end, ack);
  }

  lemma {:induction false} SettlingKeepsAccounted(w: World, v: World, m: Message, end: End, ack: Call, id: Uuid)
    requires Accounted(w, id) && m in w.queue
    requires Keeps(w, v, m) && (end == Returned ==> HandedOn(w, v, m))
    ensures Accounted(Settled(v, m, end, ack), id)
  {
    var org := w.db.resumes[id].org;
    if About(m, org, id) {
      OwnStaysAccounted(w, v, m, end, ack, id);
    } else if Pending(w.queue, org, id) {
      OtherStaysPending(w.queue, v.queue, m, end, ack, org, id);
    } else if Pending(w.dropped, org, id) {
      PendingGrows(w.dropped, Settled(v, m, end, ack).dropped, org, id);
    }
  }

  lemma {:induction false} DeliveryKeepsAccounted(w: World, ext: Externals, m: Message, calls: TaskCalls, id: Uuid)
    requires Accounted(w, id) && m in w.queue
    ensures Accounted(Delivered(w, ext, m, calls), id)
  {
    TaskKeeps(w, ext, m, calls);
    var (v, end) := TaskRun(w, ext, m, calls);
    SettlingKeepsAccounted(w, v, m, end, calls.ack, id);
  }

  /** What a submission does to the rest of the system. */
  lemma {:induction false} SubmissionKeeps(w: World, sub: Submission, calls: SubmitCalls)
    ensures
      var v := SubmitRun(w, sub, calls).0;
      && w.queue <= v.queue && v.dropped == w.dropped
      && (forall id :: id in w.db.resumes ==> id in v.db.resumes && v.db.resumes[id] == w.db.resumes[id])
  {
    SubmitEffect(w, sub, calls);
    if SubmissionRows(w.db, sub, calls).Done? {
      var candidate := RowsEffect(w.db, sub, calls);
    }
  }

  lemma {:induction false} StepKeepsAccounted(w: World, ext: Externals, e: Event, id: Uuid)
    requires Accounted(w, id)
    ensures Accounted(Step(w, ext, e), id)
  {
    var org := w.db.resumes[id].org;
    match e
    case Submit(sub, calls) =>
      SubmissionKeeps(w, sub, calls);
      PendingGrows(w.queue, SubmitRun(w, sub, calls).0.queue, org, id);
    case Publish(m) => PendingGrows(w.queue, w.queue + multiset{m}, org, id);
    case Deliver(m, calls) =>
      if m in w.queue {
        DeliveryKeepsAccounted(w, ext, m, calls, id);
      }
    case TearDown(_, _, _) =>
    case IndexTranscript(_, _, _, _, _) =>
  }

  /** No accepted resume is lost: once accounted for, a resume stays so in every state any
      run can reach, whatever fails or is redelivered and whatever else is going on. */
  lemma {:induction false} NoResumeIsLost(w: World, ext: Externals, es: seq<Event>, id: Uuid)
    requires Accounted(w, id)
    ensures Accounted(Steps(w, ext, es), id)
    decreases |es|
  {
    if es != [] {
      StepKeepsAccounted(w, ext, es[0], id);
      NoResumeIsLost(Step(w, ext, es[0]), ext, es[1..], id);
    }
  }

  /** When a committed submission is accounted for from the start: exactly when its parse
      message reached the broker. The commit comes first, so a process lost in between, or
      a broker that refuses, leaves a resume that nothing will ever pick up. */
  lemma {:induction false} AcceptedIffEnqueued(w: World, sub: Submission, calls: SubmitCalls)
    requires calls.resume !in w.db.resumes && calls.resume in SubmitRun(w, sub, calls).0.db.resumes
    requires !Pending(w.queue, sub.org, calls.resume) && !Pending(w.dropped, sub.org, calls.resume)
    ensures Accounted(SubmitRun(w, sub, calls).0, calls.resume) <==> (calls.send == Works || calls.send == RaisesLate)
  {
    var v := SubmitRun(w, sub, calls).0;
    var m := Message(ParseResume, calls.resume, sub.org, 0);
    SubmitEffect(w, sub, calls);
    var candidate := RowsEffect(w.db, sub, calls);
    assert v.db.resumes[calls.resume].org == sub.org && !Final(v.db.resumes[calls.resume]);
    if calls.send == Works || calls.send == RaisesLate {
      assert m in v.queue && About(m, sub.org, calls.resume);
    } else {
      assert v.queue == w.queue && v.dropped == w.dropped;
    }
  }

  // ----- coming to rest -----

  function Attempts(m: Message): nat {
    if m.retries < MAX_RETRIES then MAX_RETRIES + 1 - m.retries else 1
  }

  /** How many deliveries a message can still cause; a parse task may enqueue an embed task. */
  function Weight(m: Message): nat {
    if m.kind == ParseResume then (MAX_RETRIES + 2) * Attempts(m) else Attempts(m)
  }

  ghost function Total(q: multiset<Message>): nat
    decreases |q|
  {
    if q == multiset{} then 0 else
      var m :| m in q;
      Weight(m) + Total(q - multiset{m})
  }

  /** The message that `Total` counts first. */
  lemma {:induction false} TotalPick(q: multiset<Message>) returns (x: Message)
    requires q != multiset{}
    ensures x in q && Total(q) == Weight(x) + Total(q - multiset{x})
  {
    x :| x in q && Total(q) == Weight(x) + Total(q - multiset{x});
  }

  lemma {:induction false} RemoveTwo(q: multiset<Message>, x: Message, m: Message)
    requires x in q && m in q && x != m
    ensures q - multiset{x} - multiset{m} == q - multiset{m} - multiset{x}
    ensures m in q - multiset{x} && x in q - multiset{m}
    ensures |q - multiset{x}| < |q| && |q - multiset{m}| < |q|
  {
  }

  lemma {:induction false} TotalRemove(q: multiset<Message>, m: Message)
    requires m in q
    ensures Total(q) == Weight(m) + Total(q - multiset{m})
    decreases |q|
  {
    var x := TotalPick(q);
    if x != m {
      RemoveTwo(q, x, m);
      var rest, least := q - multiset{x}, q - multiset{m};
      TotalRemove(rest, m);
      TotalRemove(least, x);
    }
  }

  lemma {:induction false} TotalAdd(q: multiset<Message>, m: Message)
    ensures Total(q + multiset{m}) == Weight(m) + Total(q)
  {
    TotalRemove(q + multiset{m}, m);
    assert q + multiset{m} - multiset{m} == q;
  }

  /** The queue after an attempt: as before, or with one embed message more. */
  lemma {:induction false} TaskSends(w: World, ext: Externals, m: Message, calls: TaskCalls)
    ensures
      var (v, end) := TaskRun(w, ext, m, calls);
      && (v.queue == w.queue || (m.kind == ParseResume && v.queue == w.queue + multiset{EmbedMessage(m)}))
      && (LossFree(calls) ==> end != Lost)
  {
    match m.kind
    case ParseResume => ParseEffect(w, ext, m, calls);
    case EmbedResume =>
      EmbedEffect(w, ext, m, calls);
      EmbedEnd(w, ext, m, calls);
    case ResumeVerdict => VerdictEffect(w, ext, m, calls);
  }

  lemma WeightDrops(m: Message)
    ensures Weight(m) > 0
    ensures m.retries < MAX_RETRIES ==> Weight(Again(m)) < Weight(m)
    ensures m.kind == ParseResume ==> Weight(EmbedMessage(m)) < Weight(m)
    ensures m.kind == ParseResume && m.retries < MAX_RETRIES ==>
      Weight(EmbedMessage(m)) + Weight(Again(m)) < Weight(m)
  {
  }

  lemma {:induction false} SettlingCost(rest: multiset<Message>, after: multiset<Message>, m: Message, end: End)
    requires rest == after - multiset{m} && end != Lost
    ensures Total(SettledQueue(after, m, end, Works))
            == Total(rest) + if end == Raised && m.retries < MAX_RETRIES then Weight(Again(m)) else 0
  {
    TotalAdd(rest, Again(m));
  }

  lemma {:induction false} SettlingUsesUp(before: multiset<Message>, after: multiset<Message>, m: Message, end: End)
    requires m in before && end != Lost
    requires after == before || (m.kind == ParseResume && after == before + multiset{EmbedMessage(m)})
    ensures Total(SettledQueue(after, m, end, Works)) < Total(before)
  {
    var rest := before - multiset{m};
    WeightDrops(m);
    TotalRemove(before, m);
    if after == before {
      SettlingCost(rest, after, m, end);
    } else {
      TotalAdd(rest, EmbedMessage(m));
      assert after - multiset{m} == rest + multiset{EmbedMessage(m)};
      SettlingCost(rest + multiset{EmbedMessage(m)}, after, m, end);
    }
  }

  lemma {:induction false} DeliveryUsesUp(w: World, ext: Externals, m: Message, calls: TaskCalls)
    requires m in w.queue && LossFree(calls)
    ensures Total(Delivered(w, ext, m, calls).queue) < Total(w.queue)
  {
    TaskSends(w, ext, m, calls);
    var (v, end) := TaskRun(w, ext, m, calls);
    SettlingUsesUp(w.queue, v.queue, m, end);
  }

  /** A run of deliveries of waiting messages, none of them with a worker loss. */
  ghost predicate Busy(w: World, ext: Externals, es: seq<Event>)
    decreases |es|
  {
    es == [] ||
      (es[0].Deliver? && es[0].message in w.queue && LossFree(es[0].calls) && Busy(Step(w, ext, es[0]), ext, es[1..]))
  }

  /** The system comes to rest: without worker losses there are never more deliveries than
      the waiting messages allow, twenty for one new submission. */
  lemma {:induction false} ComesToRest(w: World, ext: Externals, es: seq<Event>)
    requires Busy(w, ext, es)
    ensures |es| + Total(Steps(w, ext, es).queue) <= Total(w.queue)
    decreases |es|
  {
    if es != [] {
      DeliveryUsesUp(w, ext, es[0].message, es[0].calls);
      ComesToRest(Step(w, ext, es[0]), ext, es[1..]);
    }
  }

  /** Once nothing is waiting, every accepted resume has a final status or is on record as
      having used up its attempts. */
  lemma {:induction false} AtRest(w: World, ext: Externals, es: seq<Event>, id: Uuid)
    requires Accounted(w, id) && Steps(w, ext, es).queue == multiset{}
    ensures
      var v := Steps(w, ext, es);
      id in v.db.resumes && (Final(v.db.resumes[id]) || Pending(v.dropped, v.db.resumes[id].org, id))
  {
    NoResumeIsLost(w, ext, es, id);
  }
}
