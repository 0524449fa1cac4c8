/**
 The logged Gate05 owner table: its CHECK constraints, unique indexes and
 BEFORE trigger (migration V0074), and the four scripts that write to it.

 Columns that a CHECK pins to one value (airport and the three ceilings) are
 left out: they cannot differ between rows.
 */
module OwnerLedger {
  import opened Common

  type Scope = string
  type SubId = string

  const MINUTE: int := 60000
  const HOUR: int := 3600000

  datatype OwnerState = PREPARED | ACTIVE | STOPPED | FAILED

  /** The columns the trigger never lets change. */
  datatype Frozen = Frozen(receiver: string, authorization: string, ticket: string,
                           start: int, stop: int, expires: int, created: int)

  datatype Row = Row(frozen: Frozen, state: OwnerState, providerId: Option<SubId>,
                     deleteVerified: Option<bool>, evidence: Option<string>, terminalAt: Option<int>)

  type Table = map<Scope, Row>

  predicate WindowCheck(f: Frozen) {
    f.start >= f.created && f.stop == f.start + HOUR && f.stop < f.expires <= f.stop + 30 * MINUTE
  }

  predicate StateCheck(r: Row) {
    match r.state
    case PREPARED => r.providerId.None? && r.deleteVerified.None? && r.evidence.None? && r.terminalAt.None?
    case ACTIVE => r.providerId.Some? && r.deleteVerified.None? && r.evidence.None? && r.terminalAt.None?
    case STOPPED => r.providerId.Some? && r.deleteVerified == Some(true) && r.evidence.Some? && r.terminalAt.Some?
    case FAILED => r.evidence.Some? && r.terminalAt.Some?
  }

  predicate Open(r: Row) { r.state.PREPARED? || r.state.ACTIVE? }

  /** The partial unique index on open rows and the UNIQUE provider id column. */
  ghost predicate UniqueIndexes(t: Table) {
    && (forall s, s' :: s in t && s' in t && Open(t[s]) && Open(t[s']) ==> s == s')
    && (forall s, s' :: s in t && s' in t && t[s].providerId.Some? && t[s].providerId == t[s'].providerId ==> s == s')
  }

  /** The BEFORE INSERT OR UPDATE trigger. */
  predicate TriggerAllows(before: Option<Row>, after: Row) {
    match before
    case None => after.state.PREPARED?
    case Some(b) =>
      && after.frozen == b.frozen
      && Open(b)
      && match after.state
         case ACTIVE => b.state.PREPARED? && after.providerId.Some? && |after.providerId.value| > 0 &&
           after.terminalAt.None?
         case STOPPED => b.state.ACTIVE? && after.providerId == b.providerId
         case FAILED => after.providerId == b.providerId
         case PREPARED => false
  }

  function Existing(t: Table, s: Scope): Option<Row> {
    if s in t then Some(t[s]) else None
  }

  /** One INSERT or UPDATE statement: None when the database raises. */
  ghost function Write(t: Table, s: Scope, r: Row): Option<Table> {
    if TriggerAllows(Existing(t, s), r) && WindowCheck(r.frozen) && StateCheck(r) && UniqueIndexes(t[s := r])
    then Some(t[s := r]) else None
  }

  // ------------------------------------------------------------------
  // The transactions
  // ------------------------------------------------------------------

  function Prepared(f: Frozen): Row { Row(f, PREPARED, None, None, None, None) }

  /** What an account-inactivity proof reads twice, thirty seconds apart. */
  datatype Quiet = Quiet(firstBalance: int, lastBalance: int, firstActive: set<SubId>, lastActive: set<SubId>)

  predicate QuietAccount(q: Quiet, baseline: int, limit: int) {
    q.firstBalance == q.lastBalance && 0 <= baseline - q.lastBalance <= limit && q.firstActive == {} &&
      q.lastActive == {}
  }

  datatype Tx =
    | Commission(scope: Scope, frozen: Frozen)
    | Recommission(prior: Scope, expected: Frozen, priorEvidence: string, now: int, scope: Scope, frozen: Frozen)
    | BindOwner(scope: Scope, expected: Frozen, id: SubId)
    | Closeout(scope: Scope, expected: Frozen, id: SubId, quiet: Quiet, baseline: int, limit: int,
               digest: string, now: int)

  /** exactOwner: the pins an operator compares; expiry and creation time are not among them. */
  predicate ExactOwner(r: Row, f: Frozen) {
    r.frozen.receiver == f.receiver && r.frozen.authorization == f.authorization && r.frozen.ticket == f.ticket &&
    r.frozen.start == f.start && r.frozen.stop == f.stop
  }

  /** UPDATE ... SET ACTIVE WHERE PREPARED AND id IS NULL AND pins: zero rows is not an error here. */
  ghost function BindUpdate(t: Table, s: Scope, f: Frozen, id: SubId): Option<Table> {
    if s in t && t[s].state.PREPARED? && t[s].providerId.None? &&
       t[s].frozen.authorization == f.authorization && t[s].frozen.ticket == f.ticket
    then Write(t, s, t[s].(state := ACTIVE, providerId := Some(id)))
    else Some(t)
  }

  /** The whole transaction: the new table on COMMIT, None when it raises and rolls back. */
  ghost function Commit(t: Table, x: Tx): Option<Table> {
    match x
    case Commission(s, f) => if s in t then None else Write(t, s, Prepared(f))
    case Recommission(p, e, ev, now, s, f) =>
      if !(p in t && t[p].state.PREPARED? && t[p].providerId.None? && ExactOwner(t[p], e)) || s in t then None
      else
        var closed := Write(t, p, t[p].(state := FAILED, evidence := Some(ev), terminalAt := Some(now)));
        if closed.None? then None else Write(closed.value, s, Prepared(f))
    case BindOwner(s, f, id) =>
      var u := BindUpdate(t, s, f, id);
      if u.Some? && s in u.value && ExactOwner(u.value[s], f) && u.value[s].state.ACTIVE? &&
        u.value[s].providerId == Some(id)
      then u else None
    case Closeout(s, f, id, q, base, limit, digest, now) =>
      if s in t && t[s].state.ACTIVE? && ExactOwner(t[s], f) && t[s].providerId == Some(id) &&
        QuietAccount(q, base, limit)
      then Write(t, s, t[s].(state := STOPPED, deleteVerified := Some(true), evidence := Some(digest),
        terminalAt := Some(now)))
      else None
  }

  /** Statements as the database sees them: the scripts' transactions, or any write at all. */
  datatype Statement = Script(tx: Tx) | Raw(scope: Scope, row: Row)

  ghost function Exec(t: Table, x: Statement): Table {
    var r := match x case Script(tx) => Commit(t, tx) case Raw(s, row) => Write(t, s, row);
    if r.Some? then r.value else t
  }

  ghost function ExecAll(t: Table, xs: seq<Statement>): Table
    decreases |xs|
  {
    if xs == [] then t else ExecAll(Exec(t, xs[0]), xs[1..])
  }

  // ------------------------------------------------------------------
  // What every statement keeps
  // ------------------------------------------------------------------

  ghost predicate TableInv(t: Table) {
    && UniqueIndexes(t)
    && forall s :: s in t ==> StateCheck(t[s]) && WindowCheck(t[s].frozen)
  }

  /** One row over time: pins fixed, states only advance, id and evidence written at most once. */
  predicate Evolves(a: Row, b: Row) {
    && a.frozen == b.frozen
    && (a.providerId.Some? ==> b.providerId == a.providerId)
    && (a.evidence.Some? ==> b == a)
    && match a.state
       case PREPARED => b.state.PREPARED? ==> b == a
       case ACTIVE => !b.state.PREPARED? && (b.state.ACTIVE? ==> b == a)
       case STOPPED => b == a
       case FAILED => b == a
  }

  ghost predicate TableEvolves(t: Table, u: Table) {
    forall s :: s in t ==> s in u && Evolves(t[s], u[s])
  }

  /** No paid row was ever marked FAILED, the discipline the scripts add to the trigger's. */
  ghost predicate PaidNeverFailed(t: Table) {
    forall s :: s in t && t[s].state.FAILED? ==> t[s].providerId.None?
  }

  lemma WriteKeeps(t: Table, s: Scope, r: Row)
    requires TableInv(t) && Write(t, s, r).Some?
    ensures TableInv(t[s := r]) && TableEvolves(t, t[s := r])
  {
    var u := t[s := r];
    forall x | x in t ensures Evolves(t[x], u[x]) { }
  }

  lemma EvolvesTransitive(t: Table, u: Table, v: Table)
    requires TableInv(t) && TableInv(u) && TableInv(v) && TableEvolves(t, u) && TableEvolves(u, v)
    ensures TableEvolves(t, v)
  {
    forall s | s in t ensures s in v && Evolves(t[s], v[s]) {
      assert Evolves(t[s], u[s]) && Evolves(u[s], v[s]);
    }
  }

  lemma RecommissionKeeps(t: Table, x: Tx)
    requires TableInv(t) && x.Recommission? && Commit(t, x).Some?
    ensures var u := Commit(t, x).value;
        TableInv(u) && TableEvolves(t, u) && (PaidNeverFailed(t) ==> PaidNeverFailed(u))
  {
    hide TableInv, TableEvolves, UniqueIndexes;
    var dead := t[x.prior].(state := FAILED, evidence := Some(x.priorEvidence), terminalAt := Some(x.now));
    var closed := t[x.prior := dead];
    WriteKeeps(t, x.prior, dead);
    WriteKeeps(closed, x.scope, Prepared(x.frozen));
    EvolvesTransitive(t, closed, closed[x.scope := Prepared(x.frozen)]);
  }

  lemma BindKeeps(t: Table, x: Tx)
    requires TableInv(t) && x.BindOwner? && Commit(t, x).Some?
    ensures var u := Commit(t, x).value;
        TableInv(u) && TableEvolves(t, u) && (PaidNeverFailed(t) ==> PaidNeverFailed(u))
  {
    hide UniqueIndexes;
    if t[x.scope].state.PREPARED? && t[x.scope].providerId.None? {
      WriteKeeps(t, x.scope, t[x.scope].(state := ACTIVE, providerId := Some(x.id)));
    }
  }

  lemma CommitKeeps(t: Table, x: Tx)
    requires TableInv(t) && Commit(t, x).Some?
    ensures var u := Commit(t, x).value;
        TableInv(u) && TableEvolves(t, u) && (PaidNeverFailed(t) ==> PaidNeverFailed(u))
  {
    hide UniqueIndexes;
    match x
    case Commission(s, f) => WriteKeeps(t, s, Prepared(f));
    case Recommission(_, _, _, _, _, _) => RecommissionKeeps(t, x);
    case BindOwner(_, _, _) => BindKeeps(t, x);
    case Closeout(s, _, _, _, _, _, digest, now) =>
      WriteKeeps(t, s, t[s].(state := STOPPED, deleteVerified := Some(true), evidence := Some(digest),
        terminalAt := Some(now)));
  }

  lemma ExecKeeps(t: Table, x: Statement)
    requires TableInv(t)
    ensures TableInv(Exec(t, x)) && TableEvolves(t, Exec(t, x))
    ensures PaidNeverFailed(t) && x.Script? ==> PaidNeverFailed(Exec(t, x))
  {
    hide UniqueIndexes, Commit;
    match x
    case Raw(s, r) => if Write(t, s, r).Some? { WriteKeeps(t, s, r); }
    case Script(tx) => if Commit(t, tx).Some? { CommitKeeps(t, tx); }
  }

  /** A write of anyone's, admitted by the table, that sets an ACTIVE row to FAILED. */
  ghost predicate FailsPaidRow(t: Table, x: Statement) {
    x.Raw? && Write(t, x.scope, x.row).Some? && x.row.state.FAILED? && x.scope in t && t[x.scope].state.ACTIVE?
  }

  /**
   Exactly how a paid row ever comes to be FAILED: by a raw write, admitted by
   the table, that sets an ACTIVE row to FAILED.
   */
  lemma PaidRowFailsOnlyByRawWrite(t: Table, x: Statement)
    requires TableInv(t) && PaidNeverFailed(t)
    ensures !PaidNeverFailed(Exec(t, x)) <==> FailsPaidRow(t, x)
  {
    ExecKeeps(t, x);
    if x.Raw? && Write(t, x.scope, x.row).Some? {
      assert Exec(t, x) == t[x.scope := x.row];
      assert x.scope in Exec(t, x);
    }
  }

  ghost predicate SomeStatementFailsPaidRow(t: Table, xs: seq<Statement>)
    decreases |xs|
  {
    xs != [] && (FailsPaidRow(t, xs[0]) || SomeStatementFailsPaidRow(Exec(t, xs[0]), xs[1..]))
  }

  lemma FailureStays(t: Table, x: Statement)
    requires TableInv(t) && !PaidNeverFailed(t)
    ensures !PaidNeverFailed(Exec(t, x))
  {
    ExecKeeps(t, x);
    var s :| s in t && t[s].state.FAILED? && t[s].providerId.Some?;
    assert Evolves(t[s], Exec(t, x)[s]);
  }

  lemma {:induction false} FailureStaysOverRuns(t: Table, xs: seq<Statement>)
    requires TableInv(t) && !PaidNeverFailed(t)
    ensures !PaidNeverFailed(ExecAll(t, xs))
    decreases |xs|
  {
    if xs != [] {
      ExecKeeps(t, xs[0]);
      FailureStays(t, xs[0]);
      FailureStaysOverRuns(Exec(t, xs[0]), xs[1..]);
    }
  }

  /** A run leaves a paid row FAILED exactly when one of its statements is such a raw write. */
  lemma {:induction false} PaidRowsFailExactlyByRawWrites(t: Table, xs: seq<Statement>)
    requires TableInv(t) && PaidNeverFailed(t)
    ensures !PaidNeverFailed(ExecAll(t, xs)) <==> SomeStatementFailsPaidRow(t, xs)
    decreases |xs|
  {
    if xs != [] {
      ExecKeeps(t, xs[0]);
      PaidRowFailsOnlyByRawWrite(t, xs[0]);
      if FailsPaidRow(t, xs[0]) {
        FailureStaysOverRuns(Exec(t, xs[0]), xs[1..]);
      } else {
        PaidRowsFailExactlyByRawWrites(Exec(t, xs[0]), xs[1..]);
      }
    }
  }

  /** Whole runs, whatever statements anyone issues: the lifecycle the trigger and constraints enforce. */
  lemma {:induction false} LifecycleOverAnyStatements(t: Table, xs: seq<Statement>)
    requires TableInv(t)
    ensures TableInv(ExecAll(t, xs)) && TableEvolves(t, ExecAll(t, xs))
    ensures PaidNeverFailed(t) && (forall x :: x in xs ==> x.Script?) ==> PaidNeverFailed(ExecAll(t, xs))
    decreases |xs|
  {
    if xs != [] {
      ExecKeeps(t, xs[0]);
      LifecycleOverAnyStatements(Exec(t, xs[0]), xs[1..]);
      EvolvesTransitive(t, Exec(t, xs[0]), ExecAll(t, xs));
    }
  }

  // ------------------------------------------------------------------
  // When a transaction commits, and what it leaves
  // ------------------------------------------------------------------

  /** Nothing but row `s` differs, and it is now `r`. */
  ghost predicate OnlyRow(t: Table, u: Table, s: Scope, r: Row) {
    u.Keys == t.Keys + {s} && u[s] == r && forall x :: x in t && x != s ==> u[x] == t[x]
  }

  /**
   The only writes the table takes, whoever issues them: a PREPARED row for a
   new scope while no row is open; PREPARED to ACTIVE with a new id; ACTIVE to
   STOPPED with its id, verified; and PREPARED or ACTIVE to FAILED with its id
   or none. Terminal rows carry evidence and a time.
   */
  lemma WriteCommitsExactly(t: Table, s: Scope, r: Row)
    requires TableInv(t)
    ensures Write(t, s, r).Some? <==>
      if s !in t then
        && r == Row(r.frozen, PREPARED, None, None, None, None)
        && r.frozen.created <= r.frozen.start && r.frozen.stop - r.frozen.start == 3600000
        && 0 < r.frozen.expires - r.frozen.stop <= 1800000
        && forall x :: x in t ==> t[x].state == STOPPED || t[x].state == FAILED
      else
        && r.frozen == t[s].frozen && (t[s].state == PREPARED || t[s].state == ACTIVE)
        && match r.state
           case PREPARED => false
           case ACTIVE =>
             && t[s].state == PREPARED && r.providerId.Some? && |r.providerId.value| > 0
             && r == Row(r.frozen, ACTIVE, r.providerId, None, None, None)
             && forall x :: x in t ==> t[x].providerId != r.providerId
           case STOPPED =>
             && t[s].state == ACTIVE && r.providerId == t[s].providerId && r.deleteVerified == Some(true)
             && r.evidence.Some? && r.terminalAt.Some?
           case FAILED => r.providerId == t[s].providerId && r.evidence.Some? && r.terminalAt.Some?
    ensures Write(t, s, r).Some? ==> OnlyRow(t, Write(t, s, r).value, s, r)
  {
    var u := t[s := r];
    if UniqueIndexes(u) {
      forall x | x in t && x != s ensures u[x] == t[x] && !(Open(u[x]) && Open(u[s])) { }
      forall x | x in t && x != s && r.providerId.Some? ensures t[x].providerId != r.providerId { assert u[x] == t[x]; }
    }
    if s in t && r.frozen == t[s].frozen && Open(t[s]) && (r.providerId == t[s].providerId ||
       forall x :: x in t ==> t[x].providerId != r.providerId) {
      assert UniqueIndexes(u);
    }
    if s !in t && r.providerId.None? && forall x :: x in t ==> !Open(t[x]) { assert UniqueIndexes(u); }
  }

  /** A commission commits exactly for a new scope with a proper one-hour window while no other row is open. */
  lemma CommissionCommitsExactly(t: Table, s: Scope, f: Frozen)
    requires TableInv(t)
    ensures Commit(t, Commission(s, f)).Some? <==>
      && s !in t
      && f.created <= f.start && f.stop - f.start == 3600000 && 0 < f.expires - f.stop <= 1800000
      && forall x :: x in t ==> t[x].state == STOPPED || t[x].state == FAILED
    ensures Commit(t, Commission(s, f)).Some? ==>
      OnlyRow(t, Commit(t, Commission(s, f)).value, s, Row(f, PREPARED, None, None, None, None))
  {
    var u := t[s := Prepared(f)];
    if s !in t && forall x :: x in t ==> t[x].state == STOPPED || t[x].state == FAILED {
      assert UniqueIndexes(u);
    }
    if s !in t && UniqueIndexes(u) {
      forall x | x in t ensures t[x].state == STOPPED || t[x].state == FAILED { assert u[x] == t[x] && Open(u[s]); }
    }
  }

  /**
   A recommission commits exactly when the prior row is still PREPARED with the
   expected receiver, authorization, ticket, start and stop, and the new scope
   is unused with a proper window.
   */
  lemma RecommissionCommitsExactly(t: Table, p: Scope, e: Frozen, ev: string, now: int, s: Scope, f: Frozen)
    requires TableInv(t)
    ensures Commit(t, Recommission(p, e, ev, now, s, f)).Some? <==>
      && p in t && t[p].state == PREPARED && s !in t
      && t[p].frozen.receiver == e.receiver && t[p].frozen.authorization == e.authorization
      && t[p].frozen.ticket == e.ticket && t[p].frozen.start == e.start && t[p].frozen.stop == e.stop
      && f.created <= f.start && f.stop - f.start == 3600000 && 0 < f.expires - f.stop <= 1800000
    ensures Commit(t, Recommission(p, e, ev, now, s, f)).Some? ==>
      var u := Commit(t, Recommission(p, e, ev, now, s, f)).value;
      && u.Keys == t.Keys + {s} && u[s] == Row(f, PREPARED, None, None, None, None)
      && u[p] == Row(t[p].frozen, FAILED, None, None, Some(ev), Some(now))
      && forall x :: x in t && x != p ==> u[x] == t[x]
  {
    if p in t && t[p].state == PREPARED && s !in t {
      var closed := t[p := Row(t[p].frozen, FAILED, None, None, Some(ev), Some(now))];
      WriteKeeps(t, p, closed[p]);
      forall x | x in closed ensures !Open(closed[x]) { if x != p { assert Open(t[p]) && closed[x] == t[x]; } }
      assert UniqueIndexes(closed[s := Prepared(f)]);
    }
  }

  /**
   A bind commits exactly on a row with the expected receiver, authorization,
   ticket, start and stop that is PREPARED, for an id no other row carries, or
   that already carries the id and is ACTIVE.
   */
  lemma BindCommitsExactly(t: Table, s: Scope, f: Frozen, id: SubId)
    requires TableInv(t)
    ensures Commit(t, BindOwner(s, f, id)).Some? <==>
      && s in t
      && t[s].frozen.receiver == f.receiver && t[s].frozen.authorization == f.authorization
      && t[s].frozen.ticket == f.ticket && t[s].frozen.start == f.start && t[s].frozen.stop == f.stop
      && (|| (t[s].state == PREPARED && |id| > 0 && forall x :: x in t ==> t[x].providerId != Some(id))
          || (t[s].state == ACTIVE && t[s].providerId == Some(id)))
    ensures Commit(t, BindOwner(s, f, id)).Some? ==>
      OnlyRow(t, Commit(t, BindOwner(s, f, id)).value, s, Row(t[s].frozen, ACTIVE, Some(id), None, None, None))
  {
    if s in t && t[s].state == PREPARED {
      var u := t[s := Row(t[s].frozen, ACTIVE, Some(id), None, None, None)];
      if forall x :: x in t ==> t[x].providerId != Some(id) { assert UniqueIndexes(u); }
      if UniqueIndexes(u) {
        forall x | x in t ensures t[x].providerId != Some(id) {
          if x != s { assert u[x] == t[x] && u[x].providerId != u[s].providerId; }
        }
      }
    }
  }

  /**
   A closeout commits exactly on an ACTIVE row with that id and the expected
   receiver, authorization, ticket, start and stop, when both lists show nothing
   active, both balances are equal and the debit is within its limit.
   */
  lemma CloseoutCommitsExactly(t: Table, s: Scope, f: Frozen, id: SubId, q: Quiet, base: int, limit: int,
                               digest: string, now: int)
    requires TableInv(t)
    ensures Commit(t, Closeout(s, f, id, q, base, limit, digest, now)).Some? <==>
      && s in t && t[s].state == ACTIVE && t[s].providerId == Some(id)
      && t[s].frozen.receiver == f.receiver && t[s].frozen.authorization == f.authorization
      && t[s].frozen.ticket == f.ticket && t[s].frozen.start == f.start && t[s].frozen.stop == f.stop
      && q.firstActive == {} && q.lastActive == {}
      && q.firstBalance == q.lastBalance && base - limit <= q.lastBalance <= base
    ensures Commit(t, Closeout(s, f, id, q, base, limit, digest, now)).Some? ==>
      OnlyRow(t, Commit(t, Closeout(s, f, id, q, base, limit, digest, now)).value, s,
              Row(t[s].frozen, STOPPED, Some(id), Some(true), Some(digest), Some(now)))
  {
    if s in t && t[s].state == ACTIVE && t[s].providerId == Some(id) {
      var u := t[s := Row(t[s].frozen, STOPPED, Some(id), Some(true), Some(digest), Some(now))];
      assert UniqueIndexes(u);
    }
  }

  /** Which terminal columns a row may carry in each state. */
  lemma StatesCarry(t: Table, s: Scope)
    requires TableInv(t) && s in t
    ensures t[s].state == PREPARED ==> t[s] == Row(t[s].frozen, PREPARED, None, None, None, None)
    ensures t[s].state == ACTIVE ==>
      t[s].providerId.Some? && t[s] == Row(t[s].frozen, ACTIVE, t[s].providerId, None, None, None)
    ensures t[s].state == STOPPED ==> t[s].providerId.Some? && t[s].deleteVerified == Some(true)
    ensures t[s].state == STOPPED || t[s].state == FAILED ==> t[s].evidence.Some? && t[s].terminalAt.Some?
    ensures t[s].frozen.created <= t[s].frozen.start && t[s].frozen.stop - t[s].frozen.start == 3600000
    ensures 0 < t[s].frozen.expires - t[s].frozen.stop <= 1800000
  { }

  /**
   The lifecycle of the scripts, from an empty table: a row is PREPARED or
   FAILED exactly when it has no provider id, at most one row is open, and
   one row's later state is reached only along PREPARED -> ACTIVE -> STOPPED
   or PREPARED -> FAILED.
   */
  lemma ScriptLifecycle(xs: seq<Statement>, ys: seq<Statement>, s: Scope)
    requires forall x :: x in xs + ys ==> x.Script?
    requires s in ExecAll(map[], xs)
    ensures s in ExecAll(ExecAll(map[], xs), ys)
    ensures var a, b := ExecAll(map[], xs)[s], ExecAll(ExecAll(map[], xs), ys)[s];
            && (b.providerId.None? <==> b.state.PREPARED? || b.state.FAILED?)
            && a.frozen == b.frozen
            && (a.providerId.Some? ==> b.providerId == a.providerId)
            && (a.evidence.Some? ==> b == a)
            && (a.state, b.state) in {
                 (PREPARED, PREPARED), (PREPARED, ACTIVE), (PREPARED, STOPPED), (PREPARED, FAILED),
                 (ACTIVE, ACTIVE), (ACTIVE, STOPPED), (STOPPED, STOPPED), (FAILED, FAILED)}
    ensures var u := ExecAll(ExecAll(map[], xs), ys);
            forall s', s'' :: s' in u && s'' in u && Open(u[s']) && Open(u[s'']) ==> s' == s''
  {
    LifecycleOverAnyStatements(map[], xs);
    LifecycleOverAnyStatements(ExecAll(map[], xs), ys);
    assert forall y :: y in ys ==> y in xs + ys;
    assert forall x :: x in xs ==> x in xs + ys;
  }

  /** The trigger alone would let a paid ACTIVE row be FAILED: only the scripts' discipline rules it out. */
  lemma RawWriteCanFailPaidRow(f: Frozen, id: SubId)
    requires WindowCheck(f) && |id| > 0
    ensures var active := Prepared(f).(state := ACTIVE, providerId := Some(id));
            var failed := active.(state := FAILED, evidence := Some("e"), terminalAt := Some(f.stop));
            var u := ExecAll(map[], [Raw("s", Prepared(f)), Raw("s", active), Raw("s", failed)]);
            "s" in u && u["s"] == failed && !PaidNeverFailed(u)
  {
    var active := Prepared(f).(state := ACTIVE, providerId := Some(id));
    var failed := active.(state := FAILED, evidence := Some("e"), terminalAt := Some(f.stop));
    var a, b, c := Raw("s", Prepared(f)), Raw("s", active), Raw("s", failed);
    var t1: Table := map["s" := Prepared(f)];
    assert Exec(map[], a) == t1;
    var t2: Table := map["s" := active];
    assert t1["s" := active] == t2;
    assert Exec(t1, b) == t2;
    var t3: Table := map["s" := failed];
    assert t2["s" := failed] == t3;
    assert Exec(t2, c) == t3;
    assert [a, b, c][1..] == [b, c] && [b, c][1..] == [c];
    assert ExecAll(t2, [c]) == ExecAll(t3, []);
  }
}
