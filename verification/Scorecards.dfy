/** Scorecards are immutable once submitted: the trigger, `amend_scorecard` and the
    append-only audit log, over every history of transactions. */
module Scorecards {
  import opened Basics
  import opened Encodings
  import Schema

  type Setting = Schema.Setting

  datatype ScorecardStatus = Draft | Submitted | Amended

  datatype Scorecard = Scorecard(
    org: Uuid, interview: Uuid, ratings: string, notes: Option<string>, status: ScorecardStatus,
    submittedAt: Option<nat>, updatedAt: nat)

  /** An audit entry; its `diff` may be anything when a session inserts it itself. */
  datatype Diff = Change(before: Scorecard, after: Scorecard) | OtherDiff(json: string)
  datatype Entry = Entry(org: Uuid, entityType: string, entity: Uuid, action: string, actor: Uuid, diff: Diff)

  /** The tables as one transaction sees them, and its amend flag. */
  datatype Tx = Tx(cards: map<Uuid, Scorecard>, audit: seq<Entry>, actors: set<Uuid>, amending: bool)

  datatype Statement =
    | AddCard(id: Uuid, card: Scorecard)
    | SetCard(id: Uuid, card: Scorecard)
    | DropCard(id: Uuid)
    | Amend(id: Uuid, ratings: string, notes: Option<string>, actor: Uuid, now: nat)
    | AddEntry(entry: Entry)
    | ChangeEntries(which: set<nat>)  // UPDATE or DELETE of some audit rows

  predicate InterviewTaken(cards: map<Uuid, Scorecard>, id: Uuid, card: Scorecard) {
    exists c :: c in cards && c != id && cards[c].interview == card.interview
  }

  /** `enforce_scorecard_immutability` */
  predicate Immutable(t: Tx, old_: Scorecard) {
    old_.status == Submitted && !t.amending
  }

  function InsertCard(t: Tx, s: Setting, id: Uuid, card: Scorecard): Option<Tx> {
    if !Schema.Allows(s, card.org) || id in t.cards || InterviewTaken(t.cards, id, card) then None
    else Some(t.(cards := t.cards[id := card]))
  }

  function UpdateCard(t: Tx, s: Setting, id: Uuid, card: Scorecard): Option<Tx> {
    if id !in t.cards || !Schema.Allows(s, t.cards[id].org) then Some(t)
    else if Immutable(t, t.cards[id]) || !Schema.Allows(s, card.org) || InterviewTaken(t.cards, id, card) then None
    else Some(t.(cards := t.cards[id := card]))
  }

  function DeleteCard(t: Tx, s: Setting, id: Uuid): Option<Tx> {
    if id !in t.cards || !Schema.Allows(s, t.cards[id].org) then Some(t) else Some(t.(cards := t.cards - {id}))
  }

  function InsertEntry(t: Tx, s: Setting, entry: Entry): Option<Tx> {
    if !Schema.Allows(s, entry.org) || entry.actor !in t.actors then None else Some(t.(audit := t.audit + [entry]))
  }

  /** `reject_audit_log_mutation` raises for the first row the session could reach. */
  function MutateEntries(t: Tx, s: Setting, which: set<nat>): Option<Tx> {
    if exists i :: i in which && i < |t.audit| && Schema.Allows(s, t.audit[i].org) then None else Some(t)
  }

  function Amendment(old_: Scorecard, ratings: string, notes: Option<string>, now: nat): Scorecard {
    old_.(ratings := ratings, notes := notes, status := Amended, updatedAt := now)
  }

  /** The whole effect of `amend_scorecard`; `None` is any exception it raises. */
  function AmendCard(t: Tx, s: Setting, id: Uuid, ratings: string, notes: Option<string>, actor: Uuid,
                     now: nat): Option<Tx> {
    if id !in t.cards || !Schema.Allows(s, t.cards[id].org) || actor !in t.actors then None
    else
      var v_old := t.cards[id];
      var v_new := Amendment(v_old, ratings, notes, now);
      Some(t.(cards := t.cards[id := v_new],
              audit := t.audit + [Entry(v_old.org, "scorecard", id, "amended", actor, Change(v_old, v_new))],
              amending := false))
  }

  function Execute(t: Tx, s: Setting, stmt: Statement): Option<Tx> {
    match stmt
    case AddCard(id, card) => InsertCard(t, s, id, card)
    case SetCard(id, card) => UpdateCard(t, s, id, card)
    case DropCard(id) => DeleteCard(t, s, id)
    case Amend(id, ratings, notes, actor, now) => AmendCard(t, s, id, ratings, notes, actor, now)
    case AddEntry(entry) => InsertEntry(t, s, entry)
    case ChangeEntries(which) => MutateEntries(t, s, which)
  }

  // ----- the statements as the server runs them -----

  /** One scorecard per interview. */
  ghost predicate UniqueInterviews(cards: map<Uuid, Scorecard>) {
    forall c, d :: c in cards && d in cards && c != d ==> cards[c].interview != cards[d].interview
  }

  /** One transaction in progress; `allowAmend` is `app.allow_scorecard_amend`. */
  class Session {
    var setting: Setting
    var cards: map<Uuid, Scorecard>
    var audit: seq<Entry>
    const actors: set<Uuid>
    var allowAmend: bool

    constructor (cards: map<Uuid, Scorecard>, audit: seq<Entry>, actors: set<Uuid>, setting: Setting)
      ensures Now() == Tx(cards, audit, actors, false) && this.setting == setting
    {
      this.cards, this.audit, this.actors, this.setting, allowAmend := cards, audit, actors, setting, false;
    }

    function Now(): Tx
      reads this
    {
      Tx(cards, audit, actors, allowAmend)
    }

    /** The BEFORE UPDATE trigger: `false` is the exception it raises. */
    method EnforceScorecardImmutability(old_: Scorecard) returns (ok: bool)
      ensures ok <==> !Immutable(Now(), old_)
    {
      if old_.status == Submitted && !allowAmend {
        return false;
      }
      return true;
    }

    method Update(id: Uuid, card: Scorecard) returns (ok: bool)
      modifies this
      ensures setting == old(setting)
      ensures
        match UpdateCard(old(Now()), setting, id, card)
        case Some(t) => ok && Now() == t
        case None => !ok && Now() == old(Now())
    {
      if id !in cards || !Schema.Allows(setting, cards[id].org) {
        return true;
      }
      ok := EnforceScorecardImmutability(cards[id]);
      if !ok || !Schema.Allows(setting, card.org) || InterviewTaken(cards, id, card) {
        return false;
      }
      cards := cards[id := card];
    }

    method InsertAudit(entry: Entry) returns (ok: bool)
      modifies this
      ensures setting == old(setting)
      ensures
        match InsertEntry(old(Now()), setting, entry)
        case Some(t) => ok && Now() == t
        case None => !ok && Now() == old(Now())
    {
      ok := Schema.Allows(setting, entry.org) && entry.actor in actors;
      if ok {
        audit := audit + [entry];
      }
    }

    /** `amend_scorecard`: raise the flag, update, lower the flag, write the audit entry. */
    method AmendScorecard(id: Uuid, ratings: string, notes: Option<string>, actor: Uuid, now: nat) returns (ok: bool)
      requires UniqueInterviews(cards)
      modifies this
      ensures setting == old(setting)
      ensures
        match AmendCard(old(Now()), setting, id, ratings, notes, actor, now)
        case Some(t) => ok && Now() == t
        case None => !ok && audit == old(audit)
      ensures allowAmend ==> old(allowAmend)
    {
      if id !in cards || !Schema.Allows(setting, cards[id].org) {
        return false;
      }
      var v_old := cards[id];
      var v_new := Amendment(v_old, ratings, notes, now);
      allowAmend := true;
      ok := Update(id, v_new);
      assert ok;
      allowAmend := false;
      ok := InsertAudit(Entry(v_old.org, "scorecard", id, "amended", actor, Change(v_old, v_new)));
    }
  }

  // ----- what each statement does -----

  /** `amend_scorecard`, exactly: it succeeds if and only if the session sees the scorecard
      and the actor exists; then the row has the new ratings and notes, everything else of
      it and every other row is as before, and one entry is added that says so. */
  lemma {:induction false} AmendmentExactly(t: Tx, s: Setting, id: Uuid, ratings: string, notes: Option<string>,
                                            actor: Uuid, now: nat)
    ensures
      var r := Execute(t, s, Amend(id, ratings, notes, actor, now));
      && (r.Some? <==> id in t.cards && s == Some(t.cards[id].org) && actor in t.actors)
      && (r.Some? ==>
            var before := t.cards[id];
            var after := Scorecard(before.org, before.interview, ratings, notes, Amended, before.submittedAt, now);
            && r.value.cards == t.cards[id := after]
            && r.value.audit == t.audit + [Entry(before.org, "scorecard", id, "amended", actor, Change(before, after))]
            && r.value.actors == t.actors && !r.value.amending)
  {
    if id in t.cards {
      var before := t.cards[id];
      assert Amendment(before, ratings, notes, now)
          == Scorecard(before.org, before.interview, ratings, notes, Amended, before.submittedAt, now);
    }
  }

  /** An INSERT, exactly: for the session's organization, a new id and a free interview. */
  lemma {:induction false} InsertionExactly(t: Tx, s: Setting, id: Uuid, card: Scorecard)
    ensures
      var r := Execute(t, s, AddCard(id, card));
      && (r.Some? <==>
            s == Some(card.org) && id !in t.cards && forall c :: c in t.cards ==> t.cards[c].interview != card.interview)
      && (r.Some? ==> r.value == t.(cards := t.cards[id := card]))
  {
    assert InterviewTaken(t.cards, id, card) && id !in t.cards ==>
      !(forall c :: c in t.cards ==> t.cards[c].interview != card.interview);
  }

  /** What is true between statements: in particular the flag is down. */
  ghost predicate Quiet(t: Tx) {
    UniqueInterviews(t.cards) && !t.amending
  }

  /** A plain UPDATE, exactly: of nothing if the session does not see the row; refused for a
      `submitted` row, another organization or a taken interview; else the row is replaced. */
  lemma {:induction false} UpdateExactly(t: Tx, s: Setting, id: Uuid, card: Scorecard)
    requires Quiet(t)
    ensures
      var r := Execute(t, s, SetCard(id, card));
      if id !in t.cards || s != Some(t.cards[id].org) then r == Some(t)
      else
        && (r.Some? <==>
              && t.cards[id].status != Submitted && card.org == t.cards[id].org
              && forall c :: c in t.cards && c != id ==> t.cards[c].interview != card.interview)
        && (r.Some? ==> r.value == t.(cards := t.cards[id := card]))
  {
  }

  /** A DELETE, exactly: of the row if the session sees it, and of nothing otherwise. */
  lemma {:induction false} DeletionExactly(t: Tx, s: Setting, id: Uuid, other: Uuid)
    ensures
      var r := Execute(t, s, DropCard(id));
      && r.Some? && r.value.audit == t.audit && r.value.actors == t.actors && r.value.amending == t.amending
      && (id in r.value.cards <==> id in t.cards && s != Some(t.cards[id].org))
      && (other in r.value.cards ==> other in t.cards && r.value.cards[other] == t.cards[other])
      && (other in t.cards && other != id ==> other in r.value.cards)
  {
  }

  /** An audit entry, exactly: for the session's organization and an actor that exists. */
  lemma {:induction false} EntryExactly(t: Tx, s: Setting, entry: Entry)
    ensures
      var r := Execute(t, s, AddEntry(entry));
      && (r.Some? <==> s == Some(entry.org) && entry.actor in t.actors)
      && (r.Some? ==> r.value == t.(audit := t.audit + [entry]))
  {
  }

  /** Changing audit entries, exactly: refused as soon as the session can reach one, and
      otherwise without effect. */
  lemma {:induction false} EntriesNeverChange(t: Tx, s: Setting, which: set<nat>)
    ensures
      var r := Execute(t, s, ChangeEntries(which));
      && (r.None? <==> exists i :: i in which && i < |t.audit| && s == Some(t.audit[i].org))
      && (r.Some? ==> r.value == t)
  {
  }

  // ----- histories -----

  ghost predicate Recorded(audit: seq<Entry>, id: Uuid, submitted: Scorecard) {
    exists i :: 0 <= i < |audit| && audit[i].entity == id && audit[i].diff.Change? && audit[i].diff.before == submitted
  }

  /** S is still the row, or an audit entry records it as what an amendment replaced. */
  ghost predicate Kept(t: Tx, id: Uuid, submitted: Scorecard) {
    (id in t.cards && t.cards[id] == submitted) || Recorded(t.audit, id, submitted)
  }

  lemma {:induction false} ExecuteKeepsQuiet(t: Tx, s: Setting, stmt: Statement)
    requires Quiet(t)
    ensures var r := Execute(t, s, stmt); r.Some? ==> Quiet(r.value) && t.audit <= r.value.audit && r.value.actors == t.actors
  {
  }

  lemma {:induction false} RecordedGrows(audit: seq<Entry>, more: seq<Entry>, id: Uuid, submitted: Scorecard)
    requires audit <= more
    ensures Recorded(audit, id, submitted) ==> Recorded(more, id, submitted)
  {
    if Recorded(audit, id, submitted) {
      var i :| 0 <= i < |audit| && audit[i].entity == id && audit[i].diff.Change? && audit[i].diff.before == submitted;
      assert more[i] == audit[i];
    }
  }

  /** A plain UPDATE does not change a submitted row, */
  lemma {:induction false} UpdatesKeepSubmitted(t: Tx, s: Setting, other: Uuid, card: Scorecard, id: Uuid)
    requires Quiet(t) && id in t.cards && t.cards[id].status == Submitted && UpdateCard(t, s, other, card).Some?
    ensures id in UpdateCard(t, s, other, card).value.cards && UpdateCard(t, s, other, card).value.cards[id] == t.cards[id]
  {
  }

  /** nor does any other statement but an amendment. */
  lemma {:induction false} OnlyAmendmentsChangeSubmitted(t: Tx, s: Setting, stmt: Statement, id: Uuid)
    requires Quiet(t) && id in t.cards && t.cards[id].status == Submitted && Execute(t, s, stmt).Some?
    ensures
      var u := Execute(t, s, stmt).value;
      stmt == DropCard(id) || (stmt.Amend? && stmt.id == id) || (id in u.cards && u.cards[id] == t.cards[id])
  {
    if stmt.SetCard? {
      UpdatesKeepSubmitted(t, s, stmt.id, stmt.card, id);
    }
  }

  lemma {:induction false} DropLosesIff(t: Tx, s: Setting, dropped: Uuid, id: Uuid, submitted: Scorecard)
    requires id in t.cards && t.cards[id] == submitted && !Recorded(t.audit, id, submitted)
    ensures !Kept(Execute(t, s, DropCard(dropped)).value, id, submitted)
       <==> dropped == id && Schema.Allows(s, submitted.org)
  {
    DeletionExactly(t, s, dropped, id);
  }

  /** One statement loses a submitted scorecard exactly if it is a DELETE that its session's
      policies let through: nothing else does, not even an amendment. */
  lemma {:induction false} LostIffDeleted(t: Tx, s: Setting, stmt: Statement, id: Uuid, submitted: Scorecard)
    requires Quiet(t) && id in t.cards && t.cards[id] == submitted && submitted.status == Submitted
    requires !Recorded(t.audit, id, submitted) && Execute(t, s, stmt).Some?
    ensures
      !Kept(Execute(t, s, stmt).value, id, submitted) <==> stmt == DropCard(id) && Schema.Allows(s, submitted.org)
  {
    if stmt.DropCard? {
      DropLosesIff(t, s, stmt.id, id, submitted);
    } else if stmt.Amend? && stmt.id == id {
      assert Execute(t, s, stmt).value.audit[|t.audit|].diff.before == submitted;
    } else {
      OnlyAmendmentsChangeSubmitted(t, s, stmt, id);
    }
  }

  lemma {:induction false} ExecuteKeeps(t: Tx, s: Setting, stmt: Statement, id: Uuid, submitted: Scorecard)
    requires Quiet(t) && Kept(t, id, submitted) && submitted.status == Submitted && stmt != DropCard(id)
    ensures var r := Execute(t, s, stmt); r.Some? ==> Kept(r.value, id, submitted)
  {
    var r := Execute(t, s, stmt);
    if r.Some? {
      ExecuteKeepsQuiet(t, s, stmt);
      RecordedGrows(t.audit, r.value.audit, id, submitted);
      if !Recorded(t.audit, id, submitted) {
        LostIffDeleted(t, s, stmt, id, submitted);
      }
    }
  }

  datatype Transaction = Transaction(statements: seq<(Setting, Statement)>, commits: bool)

  function ExecuteAll(t: Tx, stmts: seq<(Setting, Statement)>): Option<Tx>
    decreases |stmts|
  {
    if stmts == [] then Some(t) else
      match Execute(t, stmts[0].0, stmts[0].1)
      case None => None
      case Some(u) => ExecuteAll(u, stmts[1..])
  }

  /** An exception or a rollback undoes the rows, the entries and the flag alike. */
  function RunTransaction(t: Tx, tx: Transaction): Tx {
    match ExecuteAll(t, tx.statements)
    case None => t
    case Some(u) => if tx.commits then u.(amending := false) else t
  }

  function RunAll(t: Tx, txs: seq<Transaction>): Tx
    decreases |txs|
  {
    if txs == [] then t else RunAll(RunTransaction(t, txs[0]), txs[1..])
  }

  predicate NoDeletes(stmts: seq<(Setting, Statement)>, id: Uuid) {
    forall j :: 0 <= j < |stmts| ==> stmts[j].1 != DropCard(id)
  }

  predicate NoDelete(txs: seq<Transaction>, id: Uuid) {
    forall i :: 0 <= i < |txs| ==> NoDeletes(txs[i].statements, id)
  }

  lemma {:induction false} ExecuteAllKeeps(t: Tx, stmts: seq<(Setting, Statement)>, id: Uuid, submitted: Scorecard)
    requires Quiet(t)
    ensures
      var r := ExecuteAll(t, stmts);
      r.Some? ==>
        && Quiet(r.value) && t.audit <= r.value.audit
        && ((Kept(t, id, submitted) && submitted.status == Submitted && NoDeletes(stmts, id)) ==> Kept(r.value, id, submitted))
    decreases |stmts|
  {
    if stmts != [] {
      var r := Execute(t, stmts[0].0, stmts[0].1);
      if r.Some? {
        ExecuteKeepsQuiet(t, stmts[0].0, stmts[0].1);
        if Kept(t, id, submitted) && submitted.status == Submitted && stmts[0].1 != DropCard(id) {
          ExecuteKeeps(t, stmts[0].0, stmts[0].1, id, submitted);
        }
        ExecuteAllKeeps(r.value, stmts[1..], id, submitted);
      }
    }
  }

  /** Whatever any sessions do, aborted transactions included: the audit log only grows,
      the amend flag is down between statements, and a scorecard that was ever submitted
      with contents S is still S or recorded as S in the audit log, unless it is deleted. */
  lemma {:induction false} NeverSilentlyLost(t: Tx, txs: seq<Transaction>, id: Uuid, submitted: Scorecard)
    requires Quiet(t)
    ensures Quiet(RunAll(t, txs)) && t.audit <= RunAll(t, txs).audit
    ensures Kept(t, id, submitted) && submitted.status == Submitted && NoDelete(txs, id) ==> Kept(RunAll(t, txs), id, submitted)
    decreases |txs|
  {
    if txs != [] {
      ExecuteAllKeeps(t, txs[0].statements, id, submitted);
      var rest := txs[1..];
      assert NoDelete(txs, id) ==> NoDelete(rest, id) by {
        assert forall i :: 0 <= i < |rest| ==> rest[i] == txs[i + 1];
      }
      NeverSilentlyLost(RunTransaction(t, txs[0]), rest, id, submitted);
    }
  }

  // ----- what the protection does not cover -----

  /** The row is still there with other contents, and none of the entries written since
      records the old ones. */
  ghost predicate Vanished(t: Tx, u: Tx, id: Uuid) {
    && id in t.cards && id in u.cards && u.cards[id] != t.cards[id] && t.audit <= u.audit
    && !Recorded(u.audit[|t.audit|..], id, t.cards[id])
  }

  /** Exactly which statements change a scorecard without a trace: a plain UPDATE of a row
      that is not (or no longer) `submitted`, by a session of its organization. */
  lemma {:induction false} VanishesIff(t: Tx, s: Setting, stmt: Statement, id: Uuid)
    requires Quiet(t) && id in t.cards && Execute(t, s, stmt).Some?
    ensures Vanished(t, Execute(t, s, stmt).value, id) <==>
      && stmt.SetCard? && stmt.id == id && stmt.card != t.cards[id]
      && t.cards[id].status != Submitted && Schema.Allows(s, t.cards[id].org)
  {
    var u := Execute(t, s, stmt).value;
    if stmt.Amend? && stmt.id == id {
      assert u.audit[|t.audit|..][0].diff.before == t.cards[id];
    }
  }

  /** What the trigger and the procedure secure together: a `submitted` row changes only
      by an amendment, and then the log says what it was. */
  lemma {:induction false} SubmittedChangesAreRecorded(t: Tx, s: Setting, stmt: Statement, id: Uuid)
    requires Quiet(t) && id in t.cards && t.cards[id].status == Submitted && Execute(t, s, stmt).Some?
    requires id in Execute(t, s, stmt).value.cards && Execute(t, s, stmt).value.cards[id] != t.cards[id]
    ensures
      var u := Execute(t, s, stmt).value;
      && stmt.Amend? && stmt.id == id && u.cards[id].status == Amended && |u.audit| == |t.audit| + 1
      && u.audit[|t.audit|] == Entry(t.cards[id].org, "scorecard", id, "amended", stmt.actor, Change(t.cards[id], u.cards[id]))
  {
    OnlyAmendmentsChangeSubmitted(t, s, stmt, id);
  }

  /** A session of the row's organization overwrites its notes. */
  function Overwriting(t: Tx, id: Uuid): Transaction
    requires id in t.cards
  {
    var card := t.cards[id];
    var notes := if card.notes == None then Some("") else None;
    Transaction([(Some(card.org), SetCard(id, card.(notes := notes)))], true)
  }

  lemma {:induction false} OverwritingLoses(t: Tx, id: Uuid)
    requires Quiet(t) && id in t.cards && t.cards[id].status != Submitted && !Recorded(t.audit, id, t.cards[id])
    ensures NoDelete([Overwriting(t, id)], id) && !Kept(RunAll(t, [Overwriting(t, id)]), id, t.cards[id])
  {
    var tx := Overwriting(t, id);
    var (s, stmt) := tx.statements[0];
    var u := UpdateCard(t, s, id, stmt.card).value;
    assert tx.statements[1..] == [];
    assert ExecuteAll(t, tx.statements) == Some(u);
    assert RunAll(t, [tx]) == RunTransaction(t, tx);
  }

  /** Which contents can be lost without a trace by some history without deletions: of a
      row that is there and not on record, exactly those that are not `submitted`. So
      contents are safe from the moment of submission, but those an amendment wrote are
      not, until somebody submits them again. */
  lemma {:induction false} CanBeLostIff(t: Tx, id: Uuid)
    requires Quiet(t) && id in t.cards && !Recorded(t.audit, id, t.cards[id])
    ensures (exists txs :: NoDelete(txs, id) && !Kept(RunAll(t, txs), id, t.cards[id]))
       <==> t.cards[id].status != Submitted
  {
    if t.cards[id].status != Submitted {
      OverwritingLoses(t, id);
    } else {
      forall txs | NoDelete(txs, id)
        ensures Kept(RunAll(t, txs), id, t.cards[id])
      {
        NeverSilentlyLost(t, txs, id, t.cards[id]);
      }
    }
  }

  // ----- along one history -----

  /** The contents the row had before each statement, and has after the last. */
  function Contents(t: Tx, stmts: seq<(Setting, Statement)>, id: Uuid): seq<Scorecard>
    decreases |stmts|
  {
    (if id in t.cards then [t.cards[id]] else [])
    + if stmts == [] || Execute(t, stmts[0].0, stmts[0].1).None? then []
      else Contents(Execute(t, stmts[0].0, stmts[0].1).value, stmts[1..], id)
  }

  /** Of all the contents a row has had in a history without deletions, every one that was
      `submitted` is there at the end or on record, so whatever vanished was not. */
  lemma {:induction false} OnlyUnsubmittedVanish(t: Tx, stmts: seq<(Setting, Statement)>, id: Uuid, card: Scorecard)
    requires Quiet(t) && NoDeletes(stmts, id) && ExecuteAll(t, stmts).Some?
    requires card in Contents(t, stmts, id) && !Kept(ExecuteAll(t, stmts).value, id, card)
    ensures card.status != Submitted
    decreases |stmts|
  {
    ExecuteAllKeeps(t, stmts, id, card);
    if !(id in t.cards && t.cards[id] == card) {
      ExecuteKeepsQuiet(t, stmts[0].0, stmts[0].1);
      OnlyUnsubmittedVanish(Execute(t, stmts[0].0, stmts[0].1).value, stmts[1..], id, card);
    }
  }
}
