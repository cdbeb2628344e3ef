/** The lifecycle of an organization across Postgres and Qdrant, which share no
    transaction: every interleaving of creations, deactivations and workers' writes, one
    external call at a time. */
module Organizations {
  import opened Basics
  import opened Encodings
  import opened VectorStore

  datatype Status = Active | Suspended | Deactivated

  /** The next external call of a `create_organization` in progress. */
  datatype Creating =
    | Checking    // does the collection exist?
    | Provisioning // create the collection
    | Committing  // commit the row
    | Rechecking  // after a failed commit: does the collection exist?
    | Undoing     // delete it again

  /** The next external call of a `deactivate_organization` in progress. */
  datatype Closing =
    | Loading     // read the row
    | Marking     // commit status = deactivated
    | Looking     // does the collection exist?
    | Removing    // delete the collection

  datatype State = State(
    rows: map<Uuid, Status>, index: Index,
    creating: map<Uuid, Creating>,       // by the id drawn for the new organization
    closing: map<nat, (Uuid, Closing)>,  // by request; several may close one organization
    drawn: set<Uuid>)                    // every id `uuid4` has given out

  datatype Event =
    | StartCreate(id: Uuid)
    | NextOfCreate(id: Uuid, call: Call)
    | StartClose(request: nat, org: Uuid)
    | NextOfClose(request: nat, call: Call)
    | Write(org: Uuid, contents: Collection, call: Call)  // a worker indexing something

  /** The collection of an organization, if it has one. */
  function Held(ix: Index, org: Uuid): Option<Collection> {
    if CollectionName(org) in ix then Some(ix[CollectionName(org)]) else None
  }

  function Put(ix: Index, org: Uuid, c: Collection): Index {
    ix[CollectionName(org) := c]
  }

  function Remove(ix: Index, org: Uuid): Index {
    ix - {CollectionName(org)}
  }

  function CreateEnds(st: State, id: Uuid): State {
    st.(creating := st.creating - {id})
  }

  function CreateGoesOn(st: State, id: Uuid, next: Creating): State {
    st.(creating := st.creating[id := next])
  }

  function CreateStep(st: State, id: Uuid, call: Call): State
    requires id in st.creating
  {
    match st.creating[id]
    case Checking =>
      if Ask(call) != Returned then CreateEnds(st, id)
      else CreateGoesOn(st, id, if Held(st.index, id).Some? then Committing else Provisioning)
    case Provisioning =>
      if Held(st.index, id).Some? then CreateEnds(st, id)
      else
        var (index, end) := Perform(st.index, Put(st.index, id, map[]), call);
        var tried := st.(index := index);
        if end != Returned then CreateEnds(tried, id) else CreateGoesOn(tried, id, Committing)
    case Committing =>
      if call == Works then CreateEnds(st.(rows := st.rows[id := Active]), id)
      else if Ask(call) == Lost then CreateEnds(st, id)
      else CreateGoesOn(st, id, Rechecking)
    case Rechecking =>
      if Ask(call) != Returned || Held(st.index, id).None? then CreateEnds(st, id) else CreateGoesOn(st, id, Undoing)
    case Undoing =>
      CreateEnds(st.(index := Perform(st.index, Remove(st.index, id), call).0), id)
  }

  function CloseEnds(st: State, request: nat): State {
    st.(closing := st.closing - {request})
  }

  function CloseGoesOn(st: State, request: nat, org: Uuid, next: Closing): State {
    st.(closing := st.closing[request := (org, next)])
  }

  function CloseStep(st: State, request: nat, call: Call): State
    requires request in st.closing
  {
    var org := st.closing[request].0;
    match st.closing[request].1
    case Loading =>
      if Ask(call) != Returned || org !in st.rows then CloseEnds(st, request) else CloseGoesOn(st, request, org, Marking)
    case Marking =>
      if call != Works || org !in st.rows then CloseEnds(st, request)
      else CloseGoesOn(st.(rows := st.rows[org := Deactivated]), request, org, Looking)
    case Looking =>
      if Ask(call) != Returned || Held(st.index, org).None? then CloseEnds(st, request) else CloseGoesOn(st, request, org, Removing)
    case Removing =>
      CloseEnds(st.(index := Perform(st.index, Remove(st.index, org), call).0), request)
  }

  /** Workers write on behalf of organizations that have a row: resumes refer to it. */
  function Step(st: State, e: Event): State {
    match e
    case StartCreate(id) =>
      if id in st.drawn then st
      else st.(drawn := st.drawn + {id}, creating := st.creating[id := Checking])
    case NextOfCreate(id, call) => if id in st.creating then CreateStep(st, id, call) else st
    case StartClose(request, org) =>
      if request in st.closing then st else CloseGoesOn(st, request, org, Loading)
    case NextOfClose(request, call) => if request in st.closing then CloseStep(st, request, call) else st
    case Write(org, contents, call) =>
      if org in st.rows then st.(index := Written(st.index, org, contents, call).0) else st
  }

  function Run(st: State, es: seq<Event>): State
    decreases |es|
  {
    if es == [] then st else Run(Step(st, es[0]), es[1..])
  }

  const EMPTY := State(map[], map[], map[], map[], {})

  // ----- the cross-store invariant -----

  /** Every organization that is not deactivated has its collection. */
  ghost predicate Provided(st: State) {
    forall org :: org in st.rows && st.rows[org] != Deactivated ==> Held(st.index, org).Some?
  }

  /** A collection without a row holds no points. */
  ghost predicate OrphansEmpty(st: State) {
    forall org :: Held(st.index, org).Some? && org !in st.rows ==> Held(st.index, org) == Some(map[])
  }

  /** Where each creation stands. */
  ghost predicate CreationsOk(st: State) {
    forall id :: id in st.creating ==>
      && id !in st.rows && id in st.drawn
      && (st.creating[id] in {Checking, Provisioning} ==> Held(st.index, id).None?)
      && (st.creating[id] == Committing ==> Held(st.index, id).Some?)
  }

  /** A collection is only ever deleted for a row that is already deactivated. */
  ghost predicate ClosingsOk(st: State) {
    forall k :: k in st.closing ==>
      st.closing[k].1 in {Looking, Removing} ==>
        st.closing[k].0 in st.rows && st.rows[st.closing[k].0] == Deactivated
  }

  /** Rows and collections belong to ids that were drawn. */
  ghost predicate DrawnOk(st: State) {
    && (forall org :: org in st.rows ==> org in st.drawn)
    && (forall org :: Held(st.index, org).Some? ==> org in st.drawn)
  }

  ghost predicate Ok(st: State) {
    Provided(st) && OrphansEmpty(st) && CreationsOk(st) && ClosingsOk(st) && DrawnOk(st)
  }

  lemma {:induction false} HeldAfterPut(ix: Index, org: Uuid, c: Collection)
    ensures forall x :: Held(Put(ix, org, c), x) == if x == org then Some(c) else Held(ix, x)
  {
    forall x
      ensures Held(Put(ix, org, c), x) == if x == org then Some(c) else Held(ix, x)
    {
      CollectionNameInjective(x, org);
    }
  }

  lemma {:induction false} HeldAfterRemove(ix: Index, org: Uuid)
    ensures forall x :: Held(Remove(ix, org), x) == if x == org then None else Held(ix, x)
  {
    forall x
      ensures Held(Remove(ix, org), x) == if x == org then None else Held(ix, x)
    {
      CollectionNameInjective(x, org);
    }
  }

  /** What a creation step may do to the rest: the phases its id can be in. */
  ghost predicate MayBe(st: State, id: Uuid, phase: Creating) {
    && id !in st.rows && id in st.drawn
    && (phase in {Checking, Provisioning} ==> Held(st.index, id).None?)
    && (phase == Committing ==> Held(st.index, id).Some?)
  }

  lemma {:induction false} EndKeepsOk(st: State, id: Uuid)
    requires Ok(st)
    ensures Ok(CreateEnds(st, id))
  {
  }

  lemma {:induction false} MoveKeepsOk(st: State, id: Uuid, next: Creating)
    requires Ok(st) && MayBe(st, id, next)
    ensures Ok(CreateGoesOn(st, id, next))
  {
  }

  /** A new collection is empty, and changes nothing for the other organizations. */
  lemma {:induction false} ProvisionKeepsOk(st: State, id: Uuid)
    requires Ok(st) && id in st.drawn && Held(st.index, id).None?
    ensures Ok(CreateEnds(st.(index := Put(st.index, id, map[])), id))
    ensures id !in st.rows ==> Ok(CreateGoesOn(st.(index := Put(st.index, id, map[])), id, Committing))
  {
    HeldAfterPut(st.index, id, map[]);
  }

  lemma {:induction false} CommitKeepsOk(st: State, id: Uuid)
    requires Ok(st) && MayBe(st, id, Committing)
    ensures Ok(CreateEnds(st.(rows := st.rows[id := Active]), id))
  {
  }

  lemma {:induction false} UndoKeepsOk(st: State, id: Uuid)
    requires Ok(st) && id !in st.rows
    ensures Ok(CreateEnds(st.(index := Remove(st.index, id)), id))
  {
    HeldAfterRemove(st.index, id);
  }

  lemma {:induction false} CreateStepKeepsOk(st: State, id: Uuid, call: Call)
    requires Ok(st) && id in st.creating
    ensures Ok(CreateStep(st, id, call))
  {
    var next := CreateStep(st, id, call);
    EndKeepsOk(st, id);
    match st.creating[id]
    case Checking => MoveKeepsOk(st, id, Provisioning);
    case Provisioning => ProvisionKeepsOk(st, id);
    case Committing =>
      CommitKeepsOk(st, id);
      MoveKeepsOk(st, id, Rechecking);
    case Rechecking => MoveKeepsOk(st, id, Undoing);
    case Undoing => UndoKeepsOk(st, id);
  }

  lemma {:induction false} CloseMoveKeepsOk(st: State, request: nat, org: Uuid, next: Closing)
    requires Ok(st) && (next in {Looking, Removing} ==> org in st.rows && st.rows[org] == Deactivated)
    ensures Ok(CloseGoesOn(st, request, org, next)) && Ok(CloseEnds(st, request))
  {
  }

  lemma {:induction false} MarkKeepsOk(st: State, request: nat, org: Uuid)
    requires Ok(st) && org in st.rows
    ensures Ok(CloseGoesOn(st.(rows := st.rows[org := Deactivated]), request, org, Looking))
  {
  }

  lemma {:induction false} TearDownKeepsOk(st: State, request: nat, org: Uuid)
    requires Ok(st) && org in st.rows && st.rows[org] == Deactivated
    requires org in st.creating ==> st.creating[org] != Committing
    ensures Ok(CloseEnds(st.(index := Remove(st.index, org)), request))
  {
    HeldAfterRemove(st.index, org);
  }

  lemma {:induction false} CloseStepKeepsOk(st: State, request: nat, call: Call)
    requires Ok(st) && request in st.closing
    ensures Ok(CloseStep(st, request, call))
  {
    var (org, phase) := st.closing[request];
    CloseMoveKeepsOk(st, request, org, Marking);
    match phase
    case Loading =>
    case Marking =>
      if org in st.rows {
        MarkKeepsOk(st, request, org);
      }
    case Looking => CloseMoveKeepsOk(st, request, org, Removing);
    case Removing => TearDownKeepsOk(st, request, org);
  }

  lemma {:induction false} WriteKeepsOk(st: State, org: Uuid, contents: Collection, call: Call)
    requires Ok(st) && org in st.rows
    ensures Ok(st.(index := Written(st.index, org, contents, call).0))
  {
    HeldAfterPut(st.index, org, contents);
    assert Held(st.index, org).Some? ==>
      Written(st.index, org, contents, call).0 in {st.index, Put(st.index, org, contents)};
  }

  lemma {:induction false} StepKeepsOk(st: State, e: Event)
    requires Ok(st)
    ensures Ok(Step(st, e))
  {
    match e
    case StartCreate(id) =>
    case NextOfCreate(id, call) =>
      if id in st.creating {
        CreateStepKeepsOk(st, id, call);
      }
    case StartClose(request, org) =>
    case NextOfClose(request, call) =>
      if request in st.closing {
        CloseStepKeepsOk(st, request, call);
      }
    case Write(org, contents, call) =>
      if org in st.rows {
        WriteKeepsOk(st, org, contents, call);
      }
  }

  lemma {:induction false} RunKeepsOk(st: State, es: seq<Event>)
    requires Ok(st)
    ensures Ok(Run(st, es))
    decreases |es|
  {
    if es != [] {
      StepKeepsOk(st, es[0]);
      RunKeepsOk(Step(st, es[0]), es[1..]);
    }
  }

  /** A worker's write, exactly: it reaches the organization's own collection if there is a
      row, a collection and a call that has its effect, and touches nothing else. */
  lemma {:induction false} WriteExactly(st: State, org: Uuid, contents: Collection, call: Call, other: Uuid)
    ensures
      var next := Step(st, Write(org, contents, call));
      && next == st.(index := next.index)
      && Held(next.index, other)
         == if other == org && org in st.rows && Held(st.index, org).Some? && (call == Works || call == RaisesLate)
            then Some(contents) else Held(st.index, other)
  {
    HeldAfterPut(st.index, org, contents);
    assert CollectionName(org) in st.index ==> Put(st.index, org, contents) == st.index[CollectionName(org) := contents];
  }

  /** In every intermediate state of any interleaving, failures and crashes included: an
      organization that is not deactivated has its collection, and a collection without a
      row holds no points. */
  lemma {:induction false} StoresAgree(es: seq<Event>, org: Uuid)
    ensures
      var st := Run(EMPTY, es);
      && (org in st.rows && st.rows[org] != Deactivated ==> CollectionName(org) in st.index)
      && (CollectionName(org) in st.index && org !in st.rows ==> st.index[CollectionName(org)] == map[])
  {
    RunKeepsOk(EMPTY, es);
  }

  // ----- a collection that is gone stays gone -----

  /** The id has been used, has no collection, and nobody is about to create one. */
  ghost predicate Gone(st: State, org: Uuid) {
    && org in st.drawn && Held(st.index, org).None?
    && (org in st.creating ==> st.creating[org] !in {Checking, Provisioning})
  }

  /** Creating a collection is not for one that is gone, and takes none away. */
  lemma {:induction false} ProvisioningOnIndex(st: State, id: Uuid, call: Call, org: Uuid)
    requires id in st.creating && st.creating[id] == Provisioning && Held(st.index, id).None?
    requires Gone(st, org)
    ensures Gone(CreateStep(st, id, call), org)
  {
    HeldAfterPut(st.index, id, map[]);
  }

  lemma {:induction false} ProvisioningKeepsHeld(st: State, id: Uuid, call: Call, org: Uuid)
    requires id in st.creating && st.creating[id] == Provisioning && Held(st.index, org).Some?
    ensures Held(CreateStep(st, id, call).index, org).Some?
  {
    HeldAfterPut(st.index, id, map[]);
  }

  lemma {:induction false} UndoingOnIndex(st: State, id: Uuid, call: Call, org: Uuid)
    requires id in st.creating && st.creating[id] == Undoing && id in st.drawn
    requires Gone(st, org) || (Held(st.index, org).Some? && Held(CreateStep(st, id, call).index, org).None?)
    ensures Gone(CreateStep(st, id, call), org)
  {
    HeldAfterRemove(st.index, id);
  }

  lemma {:induction false} CreateStepOnIndex(st: State, id: Uuid, call: Call, org: Uuid)
    requires Ok(st) && id in st.creating
    requires Gone(st, org) || (Held(st.index, org).Some? && Held(CreateStep(st, id, call).index, org).None?)
    ensures Gone(CreateStep(st, id, call), org)
  {
    match st.creating[id]
    case Checking =>
    case Provisioning =>
      if Gone(st, org) {
        ProvisioningOnIndex(st, id, call, org);
      } else {
        ProvisioningKeepsHeld(st, id, call, org);
      }
    case Committing =>
    case Rechecking =>
    case Undoing => UndoingOnIndex(st, id, call, org);
  }

  lemma {:induction false} CloseStepOnIndex(st: State, request: nat, call: Call, org: Uuid)
    requires Ok(st) && request in st.closing
    requires Gone(st, org) || (Held(st.index, org).Some? && Held(CloseStep(st, request, call).index, org).None?)
    ensures Gone(CloseStep(st, request, call), org)
  {
    HeldAfterRemove(st.index, st.closing[request].0);
  }

  /** A collection that is gone, or that this very step removes, is gone after it. */
  lemma {:induction false} StepKeepsGone(st: State, e: Event, org: Uuid)
    requires Ok(st)
    requires Gone(st, org) || (Held(st.index, org).Some? && Held(Step(st, e).index, org).None?)
    ensures Gone(Step(st, e), org)
  {
    match e
    case StartCreate(id) =>
    case NextOfCreate(id, call) =>
      if id in st.creating {
        CreateStepOnIndex(st, id, call, org);
      }
    case StartClose(request, other) =>
    case NextOfClose(request, call) =>
      if request in st.closing {
        CloseStepOnIndex(st, request, call, org);
      }
    case Write(other, contents, call) => HeldAfterPut(st.index, other, contents);
  }

  lemma {:induction false} GoneForever(st: State, es: seq<Event>, org: Uuid)
    requires Ok(st) && Gone(st, org)
    ensures Gone(Run(st, es), org)
    decreases |es|
  {
    if es != [] {
      StepKeepsOk(st, es[0]);
      StepKeepsGone(st, es[0], org);
      GoneForever(Step(st, es[0]), es[1..], org);
    }
  }

  /** A collection that was torn down never reappears, whatever else goes on. */
  lemma {:induction false} TornDownForever(before: seq<Event>, e: Event, after: seq<Event>, org: Uuid)
    requires CollectionName(org) in Run(EMPTY, before).index
    requires CollectionName(org) !in Step(Run(EMPTY, before), e).index
    ensures CollectionName(org) !in Run(Step(Run(EMPTY, before), e), after).index
  {
    RunKeepsOk(EMPTY, before);
    var st := Run(EMPTY, before);
    StepKeepsOk(st, e);
    StepKeepsGone(st, e, org);
    GoneForever(Step(st, e), after, org);
  }

  // ----- the two services -----

  datatype CreateCalls = CreateCalls(exists_: Call, create: Call, commit: Call, recheck: Call, undo: Call)

  /** What one creation leaves in both stores when it is not interleaved with others. */
  function Created(rows: map<Uuid, Status>, ix: Index, id: Uuid, calls: CreateCalls): (map<Uuid, Status>, Index, End) {
    var (jx, end) := Provisioned(ix, id, calls.exists_, calls.create);
    if end != Returned then (rows, jx, end)
    else if calls.commit == Works then (rows[id := Active], jx, Returned)
    else if Ask(calls.commit) == Lost then (rows, jx, Lost)
    else
      var (kx, undone) := TornDown(jx, id, calls.recheck, calls.undo);
      (rows, kx, if undone == Lost then Lost else Raised)
  }

  datatype CloseCalls = CloseCalls(load: Call, commit: Call, exists_: Call, delete: Call)

  function Closed(rows: map<Uuid, Status>, ix: Index, org: Uuid, calls: CloseCalls): (map<Uuid, Status>, Index, End) {
    if Ask(calls.load) != Returned then (rows, ix, Ask(calls.load))
    else if org !in rows then (rows, ix, Returned)
    else if calls.commit != Works then (rows, ix, Ask(calls.commit))
    else
      var (jx, end) := TornDown(ix, org, calls.exists_, calls.delete);
      (rows[org := Deactivated], jx, end)
  }

  class OrganizationService {
    var rows: map<Uuid, Status>
    const store: Qdrant

    constructor (store: Qdrant)
      ensures rows == map[] && this.store == store
    {
      rows := map[];
      this.store := store;
    }

    /** Qdrant first, then Postgres; a failed commit is compensated as far as possible. */
    method CreateOrganization(organizationId: Uuid, calls: CreateCalls) returns (end: End)
      modifies this, store
      ensures (rows, store.index, end) == Created(old(rows), old(store.index), organizationId, calls)
    {
      end := store.ProvisionCollection(organizationId, calls.exists_, calls.create);
      if end != Returned {
        return;
      }
      if calls.commit == Works {
        rows := rows[organizationId := Active];
        return;
      }
      if Ask(calls.commit) == Lost {
        return Lost;
      }
      end := store.DeleteCollection(organizationId, calls.recheck, calls.undo);
      if end != Lost {
        end := Raised;
      }
    }

    /** Postgres first, then Qdrant; an unknown organization is reported as absent. */
    method DeactivateOrganization(organizationId: Uuid, calls: CloseCalls) returns (found: bool, end: End)
      modifies this, store
      ensures (rows, store.index, end) == Closed(old(rows), old(store.index), organizationId, calls)
      ensures found <==> Ask(calls.load) == Returned && organizationId in old(rows)
    {
      if Ask(calls.load) != Returned {
        return false, Ask(calls.load);
      }
      if organizationId !in rows {
        return false, Returned;
      }
      if calls.commit != Works {
        return true, Ask(calls.commit);
      }
      rows := rows[organizationId := Deactivated];
      end := store.DeleteCollection(organizationId, calls.exists_, calls.delete);
      found := true;
    }
  }

  /** Whether a creation that does not return leaves its collection behind: also when the
      reply to the create call was lost, or the process before the commit. */
  predicate LeavesOrphan(calls: CreateCalls) {
    && calls.exists_ == Works
    && (calls.create == RaisesLate
        || (calls.create == Works
            && (calls.commit == Dies
                || (calls.commit != Works && (calls.recheck != Works || calls.undo in {Raises, Dies})))))
  }

  /** Exactly when a creation succeeds, and exactly when a failed one leaves an orphaned
      collection; an orphan is empty, and nothing else changes in either store. */
  lemma {:induction false} CreatedIff(rows: map<Uuid, Status>, ix: Index, id: Uuid, calls: CreateCalls)
    requires id !in rows && Held(ix, id).None?
    ensures
      var (after, jx, end) := Created(rows, ix, id, calls);
      && (end == Returned <==> calls.exists_ == calls.create == calls.commit == Works)
      && after == (if end == Returned then rows[id := Active] else rows)
      && Held(jx, id) == (if end == Returned || LeavesOrphan(calls) then Some(map[]) else None)
      && (forall org :: org != id ==> Held(jx, org) == Held(ix, org))
  {
    HeldAfterPut(ix, id, map[]);
    HeldAfterRemove(Put(ix, id, map[]), id);
  }

  /** The same for a deactivation: the row is marked whenever the commit works, and the
      collection lingers only if the teardown after it fails. */
  lemma {:induction false} ClosedIff(rows: map<Uuid, Status>, ix: Index, org: Uuid, calls: CloseCalls)
    requires org in rows
    ensures
      var (after, jx, end) := Closed(rows, ix, org, calls);
      var marked := calls.load == calls.commit == Works;
      && after == (if marked then rows[org := Deactivated] else rows)
      && (Held(jx, org).None? <==>
            Held(ix, org).None? || (marked && calls.exists_ == Works && calls.delete in {Works, RaisesLate}))
      && (forall other :: other != org ==> Held(jx, other) == Held(ix, other))
      && (end == Returned ==> marked && Held(jx, org).None?)
  {
    HeldAfterRemove(ix, org);
  }

  // ----- each service is one run of its calls, so what holds of all runs covers it -----

  function UndoEvents(id: Uuid, calls: CreateCalls): seq<Event> {
    [NextOfCreate(id, calls.recheck), NextOfCreate(id, calls.undo)]
  }

  function CommitEvents(id: Uuid, calls: CreateCalls): seq<Event> {
    [NextOfCreate(id, calls.commit)] + UndoEvents(id, calls)
  }

  function ProvisionEvents(id: Uuid, calls: CreateCalls): seq<Event> {
    [NextOfCreate(id, calls.create)] + CommitEvents(id, calls)
  }

  function CheckEvents(id: Uuid, calls: CreateCalls): seq<Event> {
    [NextOfCreate(id, calls.exists_)] + ProvisionEvents(id, calls)
  }

  function CreateEvents(id: Uuid, calls: CreateCalls): seq<Event> {
    [StartCreate(id)] + CheckEvents(id, calls)
  }

  lemma {:induction false} RunFrom(st: State, e: Event, es: seq<Event>)
    ensures Run(st, [e] + es) == Run(Step(st, e), es)
  {
    assert ([e] + es)[1..] == es;
  }

  /** A creation that is over does nothing more. */
  lemma {:induction false} OverIsOver(st: State, id: Uuid, es: seq<Event>)
    requires id !in st.creating && forall i :: 0 <= i < |es| ==> es[i].NextOfCreate? && es[i].id == id
    ensures Run(st, es) == st
    decreases |es|
  {
    if es != [] {
      OverIsOver(st, id, es[1..]);
    }
  }

  lemma {:induction false} DrawnIsNew(st: State, id: Uuid)
    requires Ok(st) && id !in st.drawn
    ensures Held(st.index, id).None? && id !in st.creating
  {
  }

  lemma {:induction false} UndoIsARun(tried: State, id: Uuid, calls: CreateCalls)
    requires id !in tried.creating && Held(tried.index, id).Some?
    ensures Run(CreateGoesOn(tried, id, Rechecking), UndoEvents(id, calls))
         == tried.(index := TornDown(tried.index, id, calls.recheck, calls.undo).0)
  {
    var at := CreateGoesOn(tried, id, Rechecking);
    var last := [NextOfCreate(id, calls.undo)];
    assert UndoEvents(id, calls) == [NextOfCreate(id, calls.recheck)] + last;
    RunFrom(at, NextOfCreate(id, calls.recheck), last);
    if calls.recheck == Works {
      assert last == last + [];
      RunFrom(CreateGoesOn(tried, id, Undoing), last[0], []);
    } else {
      OverIsOver(tried, id, last);
    }
  }

  lemma {:induction false} CommitIsARun(tried: State, id: Uuid, calls: CreateCalls)
    requires id !in tried.creating && Held(tried.index, id).Some?
    ensures
      Run(CreateGoesOn(tried, id, Committing), CommitEvents(id, calls))
      == if calls.commit == Works then tried.(rows := tried.rows[id := Active])
         else if calls.commit == Dies then tried
         else tried.(index := TornDown(tried.index, id, calls.recheck, calls.undo).0)
  {
    var at := CreateGoesOn(tried, id, Committing);
    RunFrom(at, NextOfCreate(id, calls.commit), UndoEvents(id, calls));
    if calls.commit in {Raises, RaisesLate} {
      assert Step(at, NextOfCreate(id, calls.commit)) == CreateGoesOn(tried, id, Rechecking);
      UndoIsARun(tried, id, calls);
    } else {
      var over := if calls.commit == Works then tried.(rows := tried.rows[id := Active]) else tried;
      assert Step(at, NextOfCreate(id, calls.commit)) == over;
      OverIsOver(over, id, UndoEvents(id, calls));
    }
  }

  lemma {:induction false} ProvisionIsARun(begun: State, id: Uuid, calls: CreateCalls)
    requires id !in begun.creating && Held(begun.index, id).None? && calls.exists_ == Works
    ensures
      var (rows, ix, _) := Created(begun.rows, begun.index, id, calls);
      Run(CreateGoesOn(begun, id, Provisioning), ProvisionEvents(id, calls)) == begun.(rows := rows, index := ix)
  {
    var at := CreateGoesOn(begun, id, Provisioning);
    var tried := begun.(index := Perform(begun.index, Put(begun.index, id, map[]), calls.create).0);
    RunFrom(at, NextOfCreate(id, calls.create), CommitEvents(id, calls));
    if calls.create == Works {
      assert Step(at, NextOfCreate(id, calls.create)) == CreateGoesOn(tried, id, Committing);
      CommitIsARun(tried, id, calls);
    } else {
      assert Step(at, NextOfCreate(id, calls.create)) == tried;
      OverIsOver(tried, id, CommitEvents(id, calls));
    }
  }

  lemma {:induction false} CheckIsARun(begun: State, id: Uuid, calls: CreateCalls)
    requires id !in begun.creating && Held(begun.index, id).None?
    ensures
      var (rows, ix, _) := Created(begun.rows, begun.index, id, calls);
      Run(CreateGoesOn(begun, id, Checking), CheckEvents(id, calls)) == begun.(rows := rows, index := ix)
  {
    var at := CreateGoesOn(begun, id, Checking);
    RunFrom(at, NextOfCreate(id, calls.exists_), ProvisionEvents(id, calls));
    if calls.exists_ == Works {
      assert Step(at, NextOfCreate(id, calls.exists_)) == CreateGoesOn(begun, id, Provisioning);
      ProvisionIsARun(begun, id, calls);
    } else {
      assert Step(at, NextOfCreate(id, calls.exists_)) == begun;
      OverIsOver(begun, id, ProvisionEvents(id, calls));
    }
  }

  lemma {:induction false} CreateIsARun(st: State, id: Uuid, calls: CreateCalls)
    requires Ok(st) && id !in st.drawn
    ensures
      var (rows, ix, _) := Created(st.rows, st.index, id, calls);
      Run(st, CreateEvents(id, calls)) == st.(rows := rows, index := ix, drawn := st.drawn + {id})
  {
    DrawnIsNew(st, id);
    RunFrom(st, StartCreate(id), CheckEvents(id, calls));
    CheckIsARun(st.(drawn := st.drawn + {id}), id, calls);
  }

  function TearDownEvents(request: nat, calls: CloseCalls): seq<Event> {
    [NextOfClose(request, calls.exists_), NextOfClose(request, calls.delete)]
  }

  function MarkEvents(request: nat, calls: CloseCalls): seq<Event> {
    [NextOfClose(request, calls.commit)] + TearDownEvents(request, calls)
  }

  function CloseEvents(request: nat, org: Uuid, calls: CloseCalls): seq<Event> {
    [StartClose(request, org)] + ([NextOfClose(request, calls.load)] + MarkEvents(request, calls))
  }

  lemma {:induction false} ClosedIsClosed(st: State, request: nat, es: seq<Event>)
    requires request !in st.closing && forall i :: 0 <= i < |es| ==> es[i].NextOfClose? && es[i].request == request
    ensures Run(st, es) == st
    decreases |es|
  {
    if es != [] {
      ClosedIsClosed(st, request, es[1..]);
    }
  }

  lemma {:induction false} TearDownIsARun(marked: State, request: nat, org: Uuid, calls: CloseCalls)
    requires request !in marked.closing
    ensures Run(CloseGoesOn(marked, request, org, Looking), TearDownEvents(request, calls))
         == marked.(index := TornDown(marked.index, org, calls.exists_, calls.delete).0)
  {
    var at := CloseGoesOn(marked, request, org, Looking);
    var last := [NextOfClose(request, calls.delete)];
    assert TearDownEvents(request, calls) == [NextOfClose(request, calls.exists_)] + last;
    RunFrom(at, NextOfClose(request, calls.exists_), last);
    if calls.exists_ == Works && Held(marked.index, org).Some? {
      assert last == last + [];
      RunFrom(CloseGoesOn(marked, request, org, Removing), last[0], []);
    } else {
      ClosedIsClosed(marked, request, last);
    }
  }

  lemma {:induction false} MarkIsARun(st: State, request: nat, org: Uuid, calls: CloseCalls)
    requires request !in st.closing && org in st.rows && calls.load == Works
    ensures
      var (rows, ix, _) := Closed(st.rows, st.index, org, calls);
      Run(CloseGoesOn(st, request, org, Marking), MarkEvents(request, calls)) == st.(rows := rows, index := ix)
  {
    var at := CloseGoesOn(st, request, org, Marking);
    var marked := st.(rows := st.rows[org := Deactivated]);
    RunFrom(at, NextOfClose(request, calls.commit), TearDownEvents(request, calls));
    if calls.commit == Works {
      assert Step(at, NextOfClose(request, calls.commit)) == CloseGoesOn(marked, request, org, Looking);
      TearDownIsARun(marked, request, org, calls);
    } else {
      assert Step(at, NextOfClose(request, calls.commit)) == st;
      ClosedIsClosed(st, request, TearDownEvents(request, calls));
    }
  }

  lemma {:induction false} CloseIsARun(st: State, request: nat, org: Uuid, calls: CloseCalls)
    requires request !in st.closing
    ensures
      var (rows, ix, _) := Closed(st.rows, st.index, org, calls);
      Run(st, CloseEvents(request, org, calls)) == st.(rows := rows, index := ix)
  {
    var at := CloseGoesOn(st, request, org, Loading);
    RunFrom(st, StartClose(request, org), [NextOfClose(request, calls.load)] + MarkEvents(request, calls));
    RunFrom(at, NextOfClose(request, calls.load), MarkEvents(request, calls));
    if calls.load == Works && org in st.rows {
      assert Step(at, NextOfClose(request, calls.load)) == CloseGoesOn(st, request, org, Marking);
      MarkIsARun(st, request, org, calls);
    } else {
      assert Step(at, NextOfClose(request, calls.load)) == st;
      ClosedIsClosed(st, request, MarkEvents(request, calls));
    }
  }
}
