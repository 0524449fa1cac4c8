/** Step safety of the paid protocol: the invariant, and what every step keeps. */
module PaidSafety {
  import opened Common
  import opened OwnerLedger
  import opened PaidProtocol

  // ------------------------------------------------------------------
  // The invariant, one predicate per concern
  // ------------------------------------------------------------------

  predicate Bought(pc: Pc) { pc.AtRecord? || pc.AtFileReceipt? || pc.AtBind? || pc.AtReadback? || pc.Finished? }

  predicate IntentOnDisk(pc: Pc) { pc.AtAnnounce? || pc.AtLastClock? || pc.AtCreate? || Bought(pc) }

  /** Flags of one operator agree with where it is. */
  predicate FlagsOk(op: Op) {
    && ManifestOk(op.m)
    && (IntentOnDisk(op.pc) ==> op.filed)
    && (Live(op.pc) && !op.pc.InCatch? && !IntentOnDisk(op.pc) ==> !op.filed)
    && (op.pc.AtAnnounce? || op.pc.AtLastClock? || op.pc.AtCreate? ==> !op.posted)
    && (op.pc.AtLastClock? || op.pc.AtCreate? ==> op.announced.Some?)
    && (op.posted ==> op.filed && op.announced.Some?)
    && (op.created.Some? ==> op.posted)
    && (Bought(op.pc) ==> op.created.Some?)
    && (op.pc.AtIssue? ==> op.seen == 0)
    && op.pc != AtSession(true, true)
  }

  /** How many of the post-boundary checks an operator that can still CREATE has passed. */
  function Passed(pc: Pc): nat {
    match pc
    case AtLive(true) => 1
    case AtSession(true, _) => 2
    case AtRearmLive(true) => 2
    case AtRearmBalance(true) => 2
    case AtRearmList(true) => 2
    case AtRestore(true) => 2
    case AtBalance(true) => 3
    case AtList(true) => 4
    case AtClock => 5
    case AtFileIntent => 5
    case AtAnnounce => 5
    case AtLastClock => 5
    case AtCreate => 6
    case _ => 0
  }

  /** The STOP run was alive, after the start, when its receipt was accepted. */
  predicate LiveEvidence(w: World, m: Manifest, e: Evidence) {
    && m.owner.start <= e.liveAt && RunLiveAt(w, e.run, m, e.liveAt)
    && e.armed < |w.issue| && ReceiptAccepted(w.issue[e.armed], m, e.liveAt)
  }

  /** Everything a CREATE rests on was observed, in this order, in the fifteen seconds after the start. */
  predicate GoodEvidence(w: World, m: Manifest, e: Evidence) {
    && LiveEvidence(w, m, e)
    && e.liveAt <= e.sessionAt <= e.balanceAt <= e.listAt <= e.clockAt <= m.owner.start + 15000
    && e.balance == m.credits && e.active == {}
    && OwnerSeen(e.owner, m) && e.session == Some(SessionRow(true, None, m.owner.expires))
  }

  /** Past the first reading of the owner row, and still able to CREATE. */
  predicate OwnerRead(pc: Pc) {
    match pc
    case AtSession(_, _) => true
    case AtRearmLive(_) => true
    case AtRearmBalance(_) => true
    case AtRearmList(_) => true
    case AtRestore(_) => true
    case AtLive(_) => true
    case AtBalance(_) => true
    case AtList(_) => true
    case AtWait => true
    case _ => Passed(pc) > 0
  }

  /** The row carried every pin of the commission and nothing else. */
  predicate OwnerSeen(owner: Option<Row>, m: Manifest) {
    && owner.Some?
    && var r := owner.value;
    && r.state == PREPARED && r.providerId == None
    && r.frozen.receiver == m.owner.receiver && r.frozen.authorization == m.owner.authorization
    && r.frozen.ticket == m.owner.ticket && r.frozen.start == m.owner.start && r.frozen.stop == m.owner.stop
  }

  predicate EvidenceOk(w: World, op: Op) {
    var e, n := op.evidence, Passed(op.pc);
    && (OwnerRead(op.pc) ==> OwnerSeen(e.owner, op.m))
    && (n >= 1 ==> op.m.owner.start <= w.now)
    && (n >= 2 ==> LiveEvidence(w, op.m, e) && e.liveAt <= w.now)
    && (n >= 3 ==> e.liveAt <= e.sessionAt <= w.now && e.session == Some(SessionRow(true, None, op.m.owner.expires)))
    && (n >= 4 ==> e.sessionAt <= e.balanceAt <= w.now && e.balance == op.m.credits)
    && (n >= 5 ==> e.balanceAt <= e.listAt <= w.now && e.active == {})
    && (n >= 6 ==> GoodEvidence(w, op.m, e) && e.clockAt <= w.now)
  }

  ghost predicate OpsInv(w: World) {
    forall o :: o in w.ops ==> FlagsOk(w.ops[o]) && EvidenceOk(w, w.ops[o])
  }

  /** The exclusive create of the intent file: each directory has one author. */
  ghost predicate DirInv(w: World) {
    && (forall o :: o in w.ops && w.ops[o].filed ==> w.ops[o].dir in w.intents && w.intents[w.ops[o].dir] == o)
    && (forall d :: d in w.intents ==>
       w.intents[d] in w.ops && w.ops[w.intents[d]].filed && w.ops[w.intents[d]].dir == d)
  }

  predicate IssueOk(issue: seq<Comment>, op: Op) {
    && op.seen <= |issue|
    && (forall k :: 0 <= k < op.seen ==> issue[k].body != Intent(op.m.scope))
    && (op.announced.Some? ==>
       op.seen <= op.announced.value < |issue| && issue[op.announced.value].body == Intent(op.m.scope))
  }

  ghost predicate IssueInv(w: World) {
    forall o :: o in w.ops ==> IssueOk(w.issue, w.ops[o])
  }

  ghost predicate PostOk(w: World, p: Post) {
    && p.op in w.ops && w.ops[p.op].posted && p.dir == w.ops[p.op].dir && p.scope == w.ops[p.op].m.scope
    && GoodEvidence(w, w.ops[p.op].m, p.evidence) && p.evidence.clockAt <= p.at <= w.now
  }

  ghost predicate PostInv(w: World) {
    && (forall i :: 0 <= i < |w.posts| ==> PostOk(w, w.posts[i]))
    && (forall i, j :: 0 <= i < j < |w.posts| ==> w.posts[i].op != w.posts[j].op)
  }

  ghost predicate SubInv(w: World) {
    && (forall id :: id in w.subs && w.subs[id].origin.By? ==>
          w.subs[id].origin.op in w.ops && w.ops[w.subs[id].origin.op].posted)
    && (forall id, id' ::
          (id in w.subs && id' in w.subs && w.subs[id].origin.By? && w.subs[id].origin == w.subs[id'].origin) ==>
          id == id')
    && (forall o :: o in w.ops && w.ops[o].created.Some? ==>
          w.ops[o].created.value in w.subs && w.subs[w.ops[o].created.value].origin == By(o))
  }

  /** The row's id came back to an operator of that very scope. */
  ghost predicate BoughtFor(w: World, s: Scope, id: SubId) {
    && id in w.subs && w.subs[id].origin.By? && w.subs[id].origin.op in w.ops
    && w.ops[w.subs[id].origin.op].m.scope == s && w.ops[w.subs[id].origin.op].created == Some(id)
  }

  ghost predicate OwnerInv(w: World) {
    && TableInv(w.owners) && PaidNeverFailed(w.owners)
    && (forall s :: s in w.owners && w.owners[s].providerId.Some? ==> BoughtFor(w, s, w.owners[s].providerId.value))
  }

  ghost predicate RowHolds(w: World, s: Scope, id: Option<SubId>) {
    s in w.owners && w.owners[s].providerId == id
  }

  ghost predicate BindInv(w: World) {
    && (forall o :: o in w.ops && (w.ops[o].pc.AtReadback? || w.ops[o].pc.Finished?) ==>
       RowHolds(w, w.ops[o].m.scope, w.ops[o].created))
    && (forall r :: r in w.watchers && w.watchers[r].known.Some? ==>
          RowHolds(w, w.watchers[r].m.scope, w.watchers[r].known) &&
            ExactOwner(w.owners[w.watchers[r].m.scope], w.watchers[r].m.owner))
  }

  ghost predicate DeletionOk(w: World, d: Deletion) {
    && (d.verified ==> d.id in w.subs && !w.subs[d.id].active)
    && match d.actor
       case Operator(o) => o in w.ops && w.ops[o].created == Some(d.id)
       case Stopper(r) => r in w.watchers && RowHolds(w, w.watchers[r].m.scope, Some(d.id))
  }

  ghost predicate DeletionInv(w: World) {
    forall i :: 0 <= i < |w.deletions| ==> DeletionOk(w, w.deletions[i])
  }

  /** An operator that left through its catch block asked for the delete of the id it held. */
  ghost predicate ExitInv(w: World) {
    forall o :: o in w.ops && w.ops[o].pc.Exited? && w.ops[o].created.Some? ==> AskedFor(w, o, w.ops[o].created.value)
  }

  predicate Switched(w: World, id: SubId) { id in w.subs && w.subs[id].origin.By? && !w.subs[id].active }

  /** Purchases seen inactive stay inactive, and a STOPPED row's purchase is one of them. */
  ghost predicate StopInv(w: World) {
    && (forall id :: id in w.inspected ==> Switched(w, id))
    && (forall s :: s in w.owners && w.owners[s].state.STOPPED? ==>
          w.owners[s].providerId.Some? && w.owners[s].providerId.value in w.inspected)
  }

  ghost predicate Inv(w: World) {
    && OpsInv(w) && DirInv(w) && IssueInv(w) && PostInv(w) && SubInv(w) && OwnerInv(w) && BindInv(w)
    && DeletionInv(w) && ExitInv(w) && StopInv(w)
  }

  // ------------------------------------------------------------------
  // Steps that only read
  // ------------------------------------------------------------------

  /** The operator's own conditions, in the world it is in. */
  predicate OpOk(w: World, op: Op) { FlagsOk(op) && EvidenceOk(w, op) && IssueOk(w.issue, op) }

  /** What a reading step leaves alone in the operator's record. */
  predicate SameBuyer(a: Op, b: Op) {
    a.m == b.m && a.dir == b.dir && a.filed == b.filed && a.posted == b.posted && a.created == b.created
  }

  lemma IssueReadKeeps(w: World, op: Op)
    requires OpOk(w, op) && CheckedIssue(w, op).Some?
    ensures OpOk(w, CheckedIssue(w, op).value) && SameBuyer(op, CheckedIssue(w, op).value)
  { }

  lemma SessionReadKeeps(w: World, op: Op)
    requires OpOk(w, op) && SessionReadBack(w, op).Some?
    ensures OpOk(w, SessionReadBack(w, op).value) && SameBuyer(op, SessionReadBack(w, op).value)
  { }

  lemma LiveReadKeeps(w: World, op: Op, k: nat)
    requires OpOk(w, op) && CheckedLive(w, op, k).Some?
    ensures OpOk(w, CheckedLive(w, op, k).value) && SameBuyer(op, CheckedLive(w, op, k).value)
  { }

  lemma BalanceReadKeeps(w: World, op: Op)
    requires OpOk(w, op) && CheckedBalance(w, op).Some?
    ensures OpOk(w, CheckedBalance(w, op).value) && SameBuyer(op, CheckedBalance(w, op).value)
  { }

  lemma ListReadKeeps(w: World, op: Op)
    requires OpOk(w, op) && CheckedList(w, op).Some?
    ensures OpOk(w, CheckedList(w, op).value) && SameBuyer(op, CheckedList(w, op).value)
  { }

  lemma ClockReadKeeps(w: World, op: Op)
    requires OpOk(w, op) && CheckedClock(w, op).Some?
    ensures OpOk(w, CheckedClock(w, op).value) && SameBuyer(op, CheckedClock(w, op).value)
  { }

  lemma StartReadKeeps(w: World, op: Op)
    requires OpOk(w, op) && ReachedStart(w, op).Some?
    ensures OpOk(w, ReachedStart(w, op).value) && SameBuyer(op, ReachedStart(w, op).value)
  { }

  lemma FileReadKeeps(w: World, op: Op)
    requires OpOk(w, op) && CheckedFiles(w, op).Some?
    ensures OpOk(w, CheckedFiles(w, op).value) && SameBuyer(op, CheckedFiles(w, op).value)
  { }

  lemma OwnerReadKeeps(w: World, op: Op)
    requires OpOk(w, op) && OwnerReadBack(w, op).Some?
    ensures OpOk(w, OwnerReadBack(w, op).value) && SameBuyer(op, OwnerReadBack(w, op).value)
  { }

  lemma BindReadKeeps(w: World, op: Op)
    requires OpOk(w, op) && BindReadBack(w, op).Some?
    ensures OpOk(w, BindReadBack(w, op).value) && SameBuyer(op, BindReadBack(w, op).value)
  { }

  lemma RaiseKeeps(w: World, op: Op)
    requires OpOk(w, op) && Raised(op).Some?
    ensures OpOk(w, Raised(op).value) && SameBuyer(op, Raised(op).value)
  { }

  lemma CrashKeeps(w: World, op: Op)
    requires OpOk(w, op) && Died(op).Some?
    ensures OpOk(w, Died(op).value) && SameBuyer(op, Died(op).value)
  { }

  lemma ObserveKeeps(w: World, op: Op, a: OpStep)
    requires OpOk(w, op) && Observe(w, op, a).Some?
    ensures OpOk(w, Observe(w, op, a).value) && SameBuyer(op, Observe(w, op, a).value)
  {
    hide OpOk, SameBuyer, CheckedIssue, CheckedFiles, OwnerReadBack, SessionReadBack, CheckedLive, CheckedBalance;
    hide CheckedList, ReachedStart, CheckedClock, BindReadBack, Raised, Died;
    match a
    case CheckIssue => IssueReadKeeps(w, op);
    case CheckFiles => FileReadKeeps(w, op);
    case ReadOwner => OwnerReadKeeps(w, op);
    case ReadSession => SessionReadKeeps(w, op);
    case CheckLive(k) => LiveReadKeeps(w, op, k);
    case CheckBalance => BalanceReadKeeps(w, op);
    case CheckList => ListReadKeeps(w, op);
    case CheckClock => ClockReadKeeps(w, op);
    case ReachStart => StartReadKeeps(w, op);
    case ReadBack => BindReadKeeps(w, op);
    case Raise => RaiseKeeps(w, op);
    case Crash => CrashKeeps(w, op);
  }

  // ------------------------------------------------------------------
  // Steps that touch no money: one record, comments, sessions, receipts, the clock
  // ------------------------------------------------------------------

  predicate OpLater(a: Op, b: Op) {
    a.m == b.m && a.dir == b.dir && (a.filed ==> b.filed) && (a.posted ==> b.posted) &&
    (a.created.Some? ==> b.created == a.created) && (!a.pc.AtIssue? ==> !b.pc.AtIssue? && b.seen == a.seen) &&
    (Out(a.pc) ==> Out(b.pc) && b.filed == a.filed)
  }

  predicate Out(pc: Pc) { pc.InCatch? || pc.Exited? || pc.Crashed? }

  /** Has not looked at the thread yet, looked when it was at least this long, or left without an intent file. */
  predicate Late(op: Op, length: nat) { op.pc.AtIssue? || op.seen >= length || (Out(op.pc) && !op.filed) }

  /** Only operator `o`'s record, the thread, the sessions and the receipt files differ. */
  ghost predicate Quiet(w: World, u: World, o: OpId) {
    && o in w.ops && o in u.ops && SameBuyer(w.ops[o], u.ops[o])
    && u == w.(ops := w.ops[o := u.ops[o]], issue := u.issue, sessions := u.sessions, receipts := u.receipts)
    && w.issue <= u.issue
    && OpOk(u, u.ops[o])
    && (u.ops[o].pc.AtReadback? || u.ops[o].pc.Finished? ==> RowHolds(w, u.ops[o].m.scope, u.ops[o].created))
    && (u.ops[o].pc.Exited? ==> u.ops[o].created.None?)
    && OpLater(w.ops[o], u.ops[o])
    && (w.ops[o].pc.AtIssue? ==> Late(u.ops[o], |w.issue|))
  }

  /** Watchers keep their commission and their start; they die once, and not in the past. */
  predicate WatcherLater(a: Watcher, b: Watcher, now: int) {
    b.m == a.m && b.started == a.started &&
      (if a.died.Some? then b.died == a.died else b.died.Some? ==> now <= b.died.value)
  }

  ghost predicate WatchersLater(w: World, u: World) {
    forall r :: r in w.watchers ==> r in u.watchers && WatcherLater(w.watchers[r], u.watchers[r], w.now)
  }

  lemma OthersStayOk(w: World, u: World, op: Op)
    requires OpOk(w, op) && w.issue <= u.issue && w.now <= u.now && WatchersLater(w, u)
    ensures OpOk(u, op)
  { }

  lemma QuietKeepsOps(w: World, u: World, o: OpId)
    requires OpsInv(w) && IssueInv(w) && Quiet(w, u, o)
    ensures OpsInv(u) && IssueInv(u)
  {
    forall x | x in u.ops ensures OpOk(u, u.ops[x]) {
      if x != o { assert OpOk(w, w.ops[x]); OthersStayOk(w, u, w.ops[x]); }
    }
  }

  lemma QuietKeepsPosts(w: World, u: World, o: OpId)
    requires DirInv(w) && PostInv(w) && Quiet(w, u, o)
    ensures DirInv(u) && PostInv(u)
  {
    forall i | 0 <= i < |u.posts| ensures PostOk(u, u.posts[i]) { assert PostOk(w, w.posts[i]); }
  }

  lemma QuietKeepsMoney(w: World, u: World, o: OpId)
    requires SubInv(w) && OwnerInv(w) && BindInv(w) && DeletionInv(w) && ExitInv(w) && Quiet(w, u, o)
    ensures SubInv(u) && OwnerInv(u) && BindInv(u) && DeletionInv(u) && ExitInv(u)
  {
    forall i | 0 <= i < |u.deletions| ensures DeletionOk(u, u.deletions[i]) { assert DeletionOk(w, w.deletions[i]); }
    forall s | s in u.owners && u.owners[s].providerId.Some? ensures BoughtFor(u, s, u.owners[s].providerId.value) {
      assert BoughtFor(w, s, w.owners[s].providerId.value);
    }
  }

  lemma QuietKeeps(w: World, u: World, o: OpId)
    requires Inv(w) && Quiet(w, u, o)
    ensures Inv(u)
  {
    QuietKeepsOps(w, u, o);
    QuietKeepsPosts(w, u, o);
    QuietKeepsMoney(w, u, o);
  }

  predicate Spends(op: Op, a: OpStep) {
    a.WriteIntent? || a.PostCreate? || a.BindTransaction? || (a.Cleanup? && op.created.Some?)
  }

  lemma RestoreKeepsOp(w: World, o: OpId)
    requires o in w.ops && OpOk(w, w.ops[o]) && SessionRestored(w, o, w.ops[o]).Some?
    ensures Quiet(w, SessionRestored(w, o, w.ops[o]).value, o)
  { }

  lemma AnnounceKeepsOp(w: World, o: OpId, answered: bool)
    requires o in w.ops && OpOk(w, w.ops[o]) && IntentAnnouncedBy(w, o, w.ops[o], answered).Some?
    ensures Quiet(w, IntentAnnouncedBy(w, o, w.ops[o], answered).value, o)
  { }

  lemma RecordKeepsOp(w: World, o: OpId)
    requires o in w.ops && OpOk(w, w.ops[o]) && Recorded(w, o, w.ops[o]).Some?
    ensures Quiet(w, Recorded(w, o, w.ops[o]).value, o)
  { }

  /** How a reading step moves the operator: its history, and what it may have reached. */
  predicate Moves(w: World, a: Op, b: Op) {
    && OpLater(a, b) && !b.pc.Exited? && (a.pc.AtIssue? ==> Late(b, |w.issue|))
    && (b.pc.AtReadback? || b.pc.Finished? ==> b.m.scope in w.owners && w.owners[b.m.scope].providerId == b.created)
  }

  lemma IssueReadMoves(w: World, op: Op)
    requires FlagsOk(op) && CheckedIssue(w, op).Some?
    ensures Moves(w, op, CheckedIssue(w, op).value)
  { }

  lemma ReadMoves(w: World, op: Op, a: OpStep)
    requires FlagsOk(op) && Observe(w, op, a).Some? && !a.CheckIssue?
    ensures Moves(w, op, Observe(w, op, a).value)
  {
    hide ManifestOk, SafetyLive, SessionArmed, ExactOwner, IntentAnnounced, MayCreateInTime, ActiveSubs;
  }

  lemma ObservationIsQuiet(w: World, o: OpId, a: OpStep)
    requires o in w.ops && OpOk(w, w.ops[o]) && Observe(w, w.ops[o], a).Some?
    ensures Quiet(w, With(w, o, Observe(w, w.ops[o], a).value), o)
  {
    var op, after := w.ops[o], Observe(w, w.ops[o], a).value;
    ObserveKeeps(w, op, a);
    assert Moves(w, op, after) by {
      hide EvidenceOk, IssueOk;
      if a.CheckIssue? { IssueReadMoves(w, op); } else { ReadMoves(w, op, a); }
    }
    MovesAreQuiet(w, o, after);
  }

  lemma MovesAreQuiet(w: World, o: OpId, after: Op)
    requires o in w.ops && OpOk(w, after) && SameBuyer(w.ops[o], after) && Moves(w, w.ops[o], after)
    ensures Quiet(w, With(w, o, after), o)
  {
    hide FlagsOk, IssueOk, OpLater, Late;
  }

  lemma ReceiptKeepsOp(w: World, o: OpId)
    requires o in w.ops && OpOk(w, w.ops[o]) && ReceiptWritten(w, o, w.ops[o]).Some?
    ensures Quiet(w, ReceiptWritten(w, o, w.ops[o]).value, o)
  { }

  lemma EmptyCleanupIsQuiet(w: World, o: OpId, applied: bool, verified: bool)
    requires o in w.ops && OpOk(w, w.ops[o]) && CleanedUp(w, o, w.ops[o], applied, verified).Some? &&
        w.ops[o].created.None?
    ensures Quiet(w, CleanedUp(w, o, w.ops[o], applied, verified).value, o)
  { }

  lemma UnspendingStepIsQuiet(w: World, o: OpId, a: OpStep)
    requires o in w.ops && OpOk(w, w.ops[o]) && Operate(w, o, a).Some? && !Spends(w.ops[o], a)
    ensures Quiet(w, Operate(w, o, a).value, o)
  {
    hide Quiet, OpOk, Observe, SessionRestored, IntentAnnouncedBy, Recorded, ReceiptWritten;
    match a
    case RestoreSession => RestoreKeepsOp(w, o);
    case Announce(answered) => AnnounceKeepsOp(w, o, answered);
    case Record => RecordKeepsOp(w, o);
    case WriteReceipt => ReceiptKeepsOp(w, o);
    case Cleanup(applied, verified) => EmptyCleanupIsQuiet(w, o, applied, verified);
    case _ => ObservationIsQuiet(w, o, a);
  }

  // ------------------------------------------------------------------
  // What no step undoes
  // ------------------------------------------------------------------

  predicate SubLater(a: Sub, b: Sub) { a.origin == b.origin && (b.active ==> a.active) }

  ghost predicate SubsLater(w: World, u: World) {
    forall id :: id in w.subs && w.subs[id].origin.By? ==> id in u.subs && SubLater(w.subs[id], u.subs[id])
  }

  predicate RowLater(a: Row, b: Row) { a.frozen == b.frozen && (a.providerId.Some? ==> b.providerId == a.providerId) }

  ghost predicate RowsLater(t: Table, u: Table) { forall s :: s in t ==> s in u && RowLater(t[s], u[s]) }

  ghost predicate IntentsLater(w: World, u: World) {
    forall d :: d in w.intents ==> d in u.intents && u.intents[d] == w.intents[d]
  }

  ghost predicate OpsAreLater(w: World, u: World) {
    forall o :: o in w.ops ==> o in u.ops && OpLater(w.ops[o], u.ops[o])
  }

  ghost predicate NewcomersAreLate(w: World, u: World) {
    forall o :: o in u.ops && (o !in w.ops || w.ops[o].pc.AtIssue?) ==> Late(u.ops[o], |w.issue|)
  }

  /** History: pins, files, comments, purchases, bindings, inspections and deletions are never taken back. */
  ghost predicate Later(w: World, u: World) {
    && w.now <= u.now && w.issue <= u.issue && w.posts <= u.posts && w.deletions <= u.deletions
    && OpsAreLater(w, u) && IntentsLater(w, u) && SubsLater(w, u) && RowsLater(w.owners, u.owners)
    && WatchersLater(w, u) && w.inspected <= u.inspected && NewcomersAreLate(w, u)
  }

  lemma KeepPosts(w: World, u: World)
    requires Later(w, u) && PostInv(w) && u.posts == w.posts
    ensures PostInv(u)
  {
    forall i | 0 <= i < |u.posts| ensures PostOk(u, u.posts[i]) { PostStaysOk(w, u, w.posts[i]); }
  }

  lemma PostStaysOk(w: World, u: World, p: Post)
    requires Later(w, u) && PostOk(w, p)
    ensures PostOk(u, p)
  { }

  lemma BoughtStays(w: World, u: World, s: Scope, id: SubId)
    requires Later(w, u) && BoughtFor(w, s, id)
    ensures BoughtFor(u, s, id)
  { }

  lemma RowStays(w: World, u: World, s: Scope, id: SubId)
    requires Later(w, u) && RowHolds(w, s, Some(id))
    ensures RowHolds(u, s, Some(id))
  { }

  lemma KeepOwners(w: World, u: World)
    requires Later(w, u) && OwnerInv(w) && u.owners == w.owners
    ensures OwnerInv(u)
  {
    forall s | s in u.owners && u.owners[s].providerId.Some? ensures BoughtFor(u, s, u.owners[s].providerId.value) {
      BoughtStays(w, u, s, w.owners[s].providerId.value);
    }
  }

  lemma DeletionStaysOk(w: World, u: World, d: Deletion)
    requires Later(w, u) && SubInv(w) && OwnerInv(w) && DeletionOk(w, d)
    ensures DeletionOk(u, d)
  {
    match d.actor
    case Operator(o) => assert w.subs[d.id].origin == By(o);
    case Stopper(r) => assert BoughtFor(w, w.watchers[r].m.scope, d.id);
  }

  /** Old deletions stay justified; a step answers for the one it adds. */
  lemma KeepDeletions(w: World, u: World)
    requires Later(w, u) && SubInv(w) && OwnerInv(w) && DeletionInv(w)
    requires forall i :: |w.deletions| <= i < |u.deletions| ==> DeletionOk(u, u.deletions[i])
    ensures DeletionInv(u)
  {
    forall i | 0 <= i < |u.deletions| ensures DeletionOk(u, u.deletions[i]) {
      if i < |w.deletions| { DeletionStaysOk(w, u, w.deletions[i]); }
    }
  }

  /** No row was newly STOPPED and nothing newly inspected. */
  ghost predicate NoNewStops(w: World, u: World) {
    && u.inspected == w.inspected
    && forall s :: s in u.owners && u.owners[s].state.STOPPED? ==> s in w.owners && w.owners[s] == u.owners[s]
  }

  lemma KeepStops(w: World, u: World)
    requires Later(w, u) && StopInv(w) && NoNewStops(w, u)
    ensures StopInv(u)
  { }

  lemma OpsLater(w: World, u: World, changed: set<OpId>)
    requires OpsInv(w) && IssueInv(w) && Later(w, u)
    requires forall o :: o in u.ops && o !in changed ==> o in w.ops && u.ops[o] == w.ops[o]
    requires forall o :: o in changed && o in u.ops ==> OpOk(u, u.ops[o])
    ensures OpsInv(u) && IssueInv(u)
  {
    forall o | o in u.ops ensures OpOk(u, u.ops[o]) {
      if o !in changed { assert OpOk(w, w.ops[o]); OthersStayOk(w, u, w.ops[o]); }
    }
  }

  /** What every step that leaves posts and owners alone keeps by being later. */
  lemma Carry(w: World, u: World, changed: set<OpId>)
    requires Inv(w) && Later(w, u) && u.posts == w.posts && u.owners == w.owners && u.inspected == w.inspected
    requires forall o :: o in u.ops && o !in changed ==> o in w.ops && u.ops[o] == w.ops[o]
    requires forall o :: o in changed && o in u.ops ==> OpOk(u, u.ops[o])
    requires forall i :: |w.deletions| <= i < |u.deletions| ==> DeletionOk(u, u.deletions[i])
    ensures OpsInv(u) && IssueInv(u) && PostInv(u) && OwnerInv(u) && DeletionInv(u) && StopInv(u)
  {
    hide OpsInv, DirInv, IssueInv, PostInv, SubInv, OwnerInv, BindInv, DeletionInv, ExitInv, StopInv;
    hide Later, OpOk, DeletionOk;
    OpsLater(w, u, changed);
    KeepPosts(w, u);
    KeepOwners(w, u);
    KeepDeletions(w, u);
    assert NoNewStops(w, u);
    KeepStops(w, u);
  }

  // ------------------------------------------------------------------
  // The four steps that matter
  // ------------------------------------------------------------------

  lemma OpInWorld(w: World, o: OpId)
    requires OpsInv(w) && IssueInv(w) && o in w.ops
    ensures OpOk(w, w.ops[o])
  { }

  /** One operator past its issue check acts: its record changes, and histories grow. */
  ghost predicate Acted(w: World, u: World, o: OpId) {
    && o in w.ops && o in u.ops && u.ops == w.ops[o := u.ops[o]] && OpLater(w.ops[o], u.ops[o]) && !w.ops[o].pc.AtIssue?
    && u.now == w.now && u.watchers == w.watchers && u.inspected == w.inspected
    && w.issue <= u.issue && w.posts <= u.posts && w.deletions <= u.deletions
    && IntentsLater(w, u) && SubsLater(w, u) && RowsLater(w.owners, u.owners)
  }

  lemma ActedLater(w: World, u: World, o: OpId)
    requires Acted(w, u, o)
    ensures Later(w, u)
    ensures forall x :: x in u.ops && x !in {o} ==> x in w.ops && u.ops[x] == w.ops[x]
  {
    hide IntentsLater, SubsLater, RowsLater;
  }

  lemma SameRows(t: Table)
    ensures RowsLater(t, t)
  { }

  lemma SameSubs(w: World, u: World)
    requires u.subs == w.subs
    ensures SubsLater(w, u)
  { }

  lemma IntentActs(w: World, o: OpId, u: World)
    requires o in w.ops && IntentWritten(w, o, w.ops[o]) == Some(u)
    ensures Acted(w, u, o) && u.posts == w.posts && u.deletions == w.deletions && u.owners == w.owners
  {
    hide RowsLater, SubsLater;
    SameRows(w.owners);
    SameSubs(w, u);
  }

  lemma IntentKeepsOp(w: World, o: OpId, u: World)
    requires o in w.ops && OpOk(w, w.ops[o]) && IntentWritten(w, o, w.ops[o]) == Some(u)
    ensures OpOk(u, u.ops[o])
  { }

  lemma IntentKeepsDirs(w: World, o: OpId, u: World)
    requires DirInv(w) && o in w.ops && FlagsOk(w.ops[o]) && IntentWritten(w, o, w.ops[o]) == Some(u)
    ensures DirInv(u)
  { }

  lemma IntentKeepsMoney(w: World, o: OpId, u: World)
    requires SubInv(w) && BindInv(w) && ExitInv(w) && o in w.ops && IntentWritten(w, o, w.ops[o]) == Some(u)
    ensures SubInv(u) && BindInv(u) && ExitInv(u)
  { }

  lemma IntentKeeps(w: World, o: OpId, u: World)
    requires Inv(w) && o in w.ops && IntentWritten(w, o, w.ops[o]) == Some(u)
    ensures Later(w, u) && Inv(u)
  {
    hide OpsInv, DirInv, IssueInv, PostInv, SubInv, OwnerInv, BindInv, DeletionInv, ExitInv, StopInv;
    hide Later, OpOk, FlagsOk, EvidenceOk, IssueOk, IntentWritten;
    OpIsOk(w, o);
    IntentActs(w, o, u);
    IntentKeepsOp(w, o, u);
    IntentKeepsDirs(w, o, u);
    IntentKeepsMoney(w, o, u);
    ActedLater(w, u, o);
    Carry(w, u, {o});
  }

  lemma OpIsOk(w: World, o: OpId)
    requires OpsInv(w) && IssueInv(w) && o in w.ops
    ensures OpOk(w, w.ops[o]) && FlagsOk(w.ops[o])
  {
    OpInWorld(w, o);
  }

  lemma NewSub(w: World, u: World, id: SubId, x: Sub)
    requires id !in w.subs && u.subs == w.subs[id := x]
    ensures SubsLater(w, u)
  { }

  lemma CreateActs(w: World, o: OpId, r: Response, u: World)
    requires o in w.ops && FlagsOk(w.ops[o]) && Created(w, o, w.ops[o], r) == Some(u)
    ensures Acted(w, u, o) && u.deletions == w.deletions && u.owners == w.owners && |u.posts| == |w.posts| + 1
  {
    hide RowsLater, SubsLater;
    SameRows(w.owners);
    if r.NothingMade? { SameSubs(w, u); } else { NewSub(w, u, r.id, Sub(By(o), true)); }
  }

  lemma CreateKeepsOp(w: World, o: OpId, r: Response, u: World)
    requires o in w.ops && OpOk(w, w.ops[o]) && Created(w, o, w.ops[o], r) == Some(u)
    ensures OpOk(u, u.ops[o]) && PostOk(u, u.posts[|w.posts|])
  { }

  lemma CreateKeepsPosts(w: World, o: OpId, r: Response, u: World)
    requires PostInv(w) && o in w.ops && OpOk(w, w.ops[o]) && Created(w, o, w.ops[o], r) == Some(u) && Later(w, u)
    ensures PostInv(u)
  {
    CreateKeepsOp(w, o, r, u);
    PosterIsNew(w, o, r, u);
    forall i | 0 <= i < |w.posts| ensures PostOk(u, u.posts[i]) { PostStaysOk(w, u, w.posts[i]); }
    AppendedPost(w, u, u.posts[|w.posts|]);
  }

  lemma PosterIsNew(w: World, o: OpId, r: Response, u: World)
    requires PostInv(w) && o in w.ops && FlagsOk(w.ops[o]) && Created(w, o, w.ops[o], r) == Some(u)
    ensures |u.posts| == |w.posts| + 1 && w.posts <= u.posts && u.posts[|w.posts|].op == o
    ensures forall i :: 0 <= i < |w.posts| ==> w.posts[i].op != o
  {
    forall i | 0 <= i < |w.posts| ensures w.posts[i].op != o { assert PostOk(w, w.posts[i]); }
  }

  lemma AppendedPost(w: World, u: World, p: Post)
    requires PostInv(w) && |u.posts| == |w.posts| + 1 && w.posts <= u.posts && u.posts[|w.posts|] == p && PostOk(u, p)
    requires forall i :: 0 <= i < |w.posts| ==> w.posts[i].op != p.op && PostOk(u, u.posts[i])
    ensures PostInv(u)
  {
    hide PostOk;
    forall i | 0 <= i < |u.posts| ensures PostOk(u, u.posts[i]) { }
  }

  lemma CreateKeepsSubs(w: World, o: OpId, r: Response, u: World)
    requires SubInv(w) && o in w.ops && FlagsOk(w.ops[o]) && Created(w, o, w.ops[o], r) == Some(u)
    ensures SubInv(u)
  { }

  lemma CreateKeepsRest(w: World, o: OpId, r: Response, u: World)
    requires DirInv(w) && BindInv(w) && ExitInv(w) && o in w.ops && FlagsOk(w.ops[o]) &&
        Created(w, o, w.ops[o], r) == Some(u)
    ensures DirInv(u) && BindInv(u) && ExitInv(u)
  { }

  lemma CreateKeeps(w: World, o: OpId, r: Response, u: World)
    requires Inv(w) && o in w.ops && Created(w, o, w.ops[o], r) == Some(u)
    ensures Later(w, u) && Inv(u)
  {
    hide OpsInv, DirInv, IssueInv, PostInv, SubInv, OwnerInv, BindInv, DeletionInv, ExitInv, StopInv;
    hide Later, OpOk, FlagsOk, EvidenceOk, IssueOk, PostOk, DeletionOk, Created;
    OpIsOk(w, o);
    CreateActs(w, o, r, u);
    ActedLater(w, u, o);
    CreateKeepsOp(w, o, r, u);
    OpsLater(w, u, {o});
    CreateKeepsPosts(w, o, r, u);
    CreateKeepsSubs(w, o, r, u);
    CreateKeepsRest(w, o, r, u);
    KeepOwners(w, u);
    KeepDeletions(w, u);
    assert NoNewStops(w, u);
    KeepStops(w, u);
  }

  lemma CommitLater(t: Table, tx: Tx)
    requires TableInv(t) && PaidNeverFailed(t) && Commit(t, tx).Some?
    ensures var u := Commit(t, tx).value; TableInv(u) && PaidNeverFailed(u) && RowsLater(t, u)
  {
    ExecKeeps(t, Script(tx));
    forall s | s in t ensures s in Commit(t, tx).value && RowLater(t[s], Commit(t, tx).value[s]) {
      assert Evolves(t[s], Commit(t, tx).value[s]);
    }
  }

  /** Only a bind gives a row an id, and only to the one row it binds. */
  lemma BindChangesOneRow(t: Table, s: Scope, f: Frozen, id: SubId)
    requires TableInv(t) && Commit(t, BindOwner(s, f, id)).Some?
    ensures var u := Commit(t, BindOwner(s, f, id)).value;
      && u.Keys == t.Keys && s in u && u[s].providerId == Some(id) && u[s].state.ACTIVE?
      && forall x :: x in t && x != s ==> u[x] == t[x]
  { }

  /** The table after the bind's transaction, and whether it was applied. */
  lemma BoundShape(w: World, o: OpId, a: CommitAnswer, u: World)
    requires o in w.ops && Bound(w, o, w.ops[o], a) == Some(u)
    ensures w.ops[o].created.Some? && w.ops[o].pc.AtBind?
    ensures var t := Commit(w.owners, BindOwner(w.ops[o].m.scope, w.ops[o].m.owner, w.ops[o].created.value));
      && t.Some? && u.owners == (if a.NotApplied? then w.owners else t.value)
    ensures u == w.(ops := w.ops[o := u.ops[o]], owners := u.owners, sessions := u.sessions)
    ensures u.ops[o] == w.ops[o].(pc := if a.Acknowledged? then AtReadback else InCatch)
  {
    hide Commit;
  }

  lemma BindActs(w: World, o: OpId, a: CommitAnswer, u: World)
    requires TableInv(w.owners) && PaidNeverFailed(w.owners) && o in w.ops && Bound(w, o, w.ops[o], a) == Some(u)
    ensures Acted(w, u, o) && u.posts == w.posts && u.deletions == w.deletions && TableInv(u.owners) &&
        PaidNeverFailed(u.owners)
  {
    hide Bound, Commit, TableInv, PaidNeverFailed, RowsLater, SubsLater;
    BoundShape(w, o, a, u);
    SameSubs(w, u);
    SameRows(w.owners);
    CommitLater(w.owners, BindOwner(w.ops[o].m.scope, w.ops[o].m.owner, w.ops[o].created.value));
  }

  lemma BindKeepsOp(w: World, o: OpId, a: CommitAnswer, u: World)
    requires o in w.ops && OpOk(w, w.ops[o]) && Bound(w, o, w.ops[o], a) == Some(u)
    ensures OpOk(u, u.ops[o])
  {
    hide Bound;
    BoundShape(w, o, a, u);
  }

  /** Every paid row stays paid for, and the newly bound one was paid by this operator. */
  lemma BindKeepsOwners(w: World, o: OpId, a: CommitAnswer, u: World)
    requires OwnerInv(w) && SubInv(w) && o in w.ops && Bound(w, o, w.ops[o], a) == Some(u)
    requires Later(w, u) && TableInv(u.owners) && PaidNeverFailed(u.owners)
    ensures OwnerInv(u) && (a.Acknowledged? ==> RowHolds(u, w.ops[o].m.scope, w.ops[o].created))
  {
    hide Bound, Commit, TableInv, PaidNeverFailed, Later;
    BoundShape(w, o, a, u);
    var op := w.ops[o];
    BindChangesOneRow(w.owners, op.m.scope, op.m.owner, op.created.value);
    forall s | s in u.owners && u.owners[s].providerId.Some? ensures BoughtFor(u, s, u.owners[s].providerId.value) {
      if u.owners[s] == w.owners[s] {
        BoughtStays(w, u, s, w.owners[s].providerId.value);
      } else {
        assert u.subs[op.created.value].origin == By(o);
      }
    }
  }

  lemma BindStopsNothing(w: World, o: OpId, a: CommitAnswer, u: World)
    requires TableInv(w.owners) && o in w.ops && Bound(w, o, w.ops[o], a) == Some(u)
    ensures NoNewStops(w, u)
  {
    hide Bound, Commit, TableInv;
    BoundShape(w, o, a, u);
    BindChangesOneRow(w.owners, w.ops[o].m.scope, w.ops[o].m.owner, w.ops[o].created.value);
  }

  lemma BindKeepsRest(w: World, o: OpId, a: CommitAnswer, u: World)
    requires DirInv(w) && SubInv(w) && ExitInv(w) && o in w.ops && Bound(w, o, w.ops[o], a) == Some(u)
    ensures DirInv(u) && SubInv(u) && ExitInv(u)
  {
    hide Bound, Commit;
    BoundShape(w, o, a, u);
    assert ExitInv(u);
    assert SubInv(u);
  }

  /** What watchers and finished operators rely on. */
  lemma KnownStays(w: World, u: World, r: RunId)
    requires Later(w, u) && BindInv(w) && r in w.watchers && w.watchers[r].known.Some?
    ensures RowHolds(u, w.watchers[r].m.scope, w.watchers[r].known)
    ensures ExactOwner(u.owners[w.watchers[r].m.scope], w.watchers[r].m.owner)
  { }

  lemma BindKeepsBindings(w: World, o: OpId, a: CommitAnswer, u: World)
    requires BindInv(w) && SubInv(w) && o in w.ops && Bound(w, o, w.ops[o], a) == Some(u) && Later(w, u)
    requires a.Acknowledged? ==> RowHolds(u, w.ops[o].m.scope, w.ops[o].created)
    requires forall x :: x in w.ops && (w.ops[x].pc.AtReadback? || w.ops[x].pc.Finished?) ==> w.ops[x].created.Some?
    ensures BindInv(u)
  {
    BoundShape(w, o, a, u);
    hide Bound, Later;
    forall x | x in u.ops && (u.ops[x].pc.AtReadback? || u.ops[x].pc.Finished?)
      ensures RowHolds(u, u.ops[x].m.scope, u.ops[x].created)
    {
      if x != o { RowStays(w, u, w.ops[x].m.scope, w.ops[x].created.value); }
    }
    forall r | r in u.watchers && u.watchers[r].known.Some?
      ensures RowHolds(u, u.watchers[r].m.scope, u.watchers[r].known)
      ensures ExactOwner(u.owners[u.watchers[r].m.scope], u.watchers[r].m.owner)
    {
      KnownStays(w, u, r);
    }
  }

  lemma ReadersHaveIds(w: World)
    requires OpsInv(w)
    ensures forall x :: x in w.ops && (w.ops[x].pc.AtReadback? || w.ops[x].pc.Finished?) ==> w.ops[x].created.Some?
  {
    forall x | x in w.ops ensures w.ops[x].pc.AtReadback? || w.ops[x].pc.Finished? ==> w.ops[x].created.Some? {
      assert FlagsOk(w.ops[x]);
    }
  }

  lemma OwnersAreTable(w: World)
    requires OwnerInv(w)
    ensures TableInv(w.owners) && PaidNeverFailed(w.owners)
  { }

  lemma BindKeeps(w: World, o: OpId, a: CommitAnswer, u: World)
    requires Inv(w) && o in w.ops && Bound(w, o, w.ops[o], a) == Some(u)
    ensures Later(w, u) && Inv(u)
  {
    hide OpsInv, DirInv, IssueInv, PostInv, SubInv, OwnerInv, BindInv, DeletionInv, ExitInv, StopInv;
    hide Later, OpOk, FlagsOk, EvidenceOk, IssueOk, Bound, TableInv, PaidNeverFailed, NoNewStops, DeletionOk;
    OpIsOk(w, o);
    OwnersAreTable(w);
    BindActs(w, o, a, u);
    ActedLater(w, u, o);
    BindKeepsOp(w, o, a, u);
    OpsLater(w, u, {o});
    KeepPosts(w, u);
    BindKeepsOwners(w, o, a, u);
    BindKeepsRest(w, o, a, u);
    ReadersHaveIds(w);
    BindKeepsBindings(w, o, a, u);
    KeepDeletions(w, u);
    BindStopsNothing(w, o, a, u);
    KeepStops(w, u);
  }

  lemma SwitchedOff(w: World, u: World, id: SubId)
    requires u.subs == w.subs || u.subs == Deactivate(w, id)
    ensures SubsLater(w, u)
  { }

  lemma CleanupActs(w: World, o: OpId, applied: bool, verified: bool, u: World)
    requires o in w.ops && w.ops[o].created.Some? && CleanedUp(w, o, w.ops[o], applied, verified) == Some(u)
    ensures Acted(w, u, o) && u.posts == w.posts && u.owners == w.owners && w.ops[o].pc.InCatch?
    ensures u == w.(ops := w.ops[o := w.ops[o].(pc := Exited)], deletions := u.deletions, subs := u.subs)
    ensures u.deletions == w.deletions + [Deletion(Operator(o), w.ops[o].created.value, verified)]
  {
    hide RowsLater, SubsLater;
    SameRows(w.owners);
    SwitchedOff(w, u, w.ops[o].created.value);
  }

  lemma LeavingIsOk(w: World, u: World, op: Op)
    requires OpOk(w, op) && u.issue == w.issue && op.pc.InCatch?
    ensures OpOk(u, op.(pc := Exited))
  { }

  lemma CleanupKeepsRest(w: World, o: OpId, applied: bool, verified: bool, u: World)
    requires DirInv(w) && SubInv(w) && BindInv(w) && o in w.ops && w.ops[o].created.Some?
    requires CleanedUp(w, o, w.ops[o], applied, verified) == Some(u)
    ensures DirInv(u) && SubInv(u) && BindInv(u) && DeletionOk(u, u.deletions[|w.deletions|])
  { }

  ghost predicate AskedFor(w: World, o: OpId, id: SubId) {
    exists i :: 0 <= i < |w.deletions| && w.deletions[i].actor == Operator(o) && w.deletions[i].id == id
  }

  lemma AskedForStays(w: World, u: World, o: OpId, id: SubId)
    requires AskedFor(w, o, id) && w.deletions <= u.deletions
    ensures AskedFor(u, o, id)
  {
    var i :| 0 <= i < |w.deletions| && w.deletions[i].actor == Operator(o) && w.deletions[i].id == id;
    assert u.deletions[i] == w.deletions[i];
  }

  lemma CleanupKeepsExits(w: World, o: OpId, applied: bool, verified: bool, u: World)
    requires ExitInv(w) && o in w.ops && w.ops[o].created.Some? &&
        CleanedUp(w, o, w.ops[o], applied, verified) == Some(u)
    ensures ExitInv(u)
  {
    hide CleanedUp, AskedFor;
    CleanupActs(w, o, applied, verified, u);
    LastAsked(w, u, o, w.ops[o].created.value, verified);
    forall x | x in u.ops && u.ops[x].pc.Exited? && u.ops[x].created.Some?
      ensures AskedFor(u, x, u.ops[x].created.value)
    {
      if x != o { AskedForStays(w, u, x, w.ops[x].created.value); }
    }
  }

  lemma LastAsked(w: World, u: World, o: OpId, id: SubId, verified: bool)
    requires u.deletions == w.deletions + [Deletion(Operator(o), id, verified)]
    ensures AskedFor(u, o, id)
  {
    assert u.deletions[|w.deletions|].actor == Operator(o);
  }

  lemma CleanupKeeps(w: World, o: OpId, applied: bool, verified: bool, u: World)
    requires Inv(w) && o in w.ops && w.ops[o].created.Some? && CleanedUp(w, o, w.ops[o], applied, verified) == Some(u)
    ensures Later(w, u) && Inv(u)
  {
    hide OpsInv, DirInv, IssueInv, PostInv, SubInv, OwnerInv, BindInv, DeletionInv, ExitInv, StopInv;
    hide Later, OpOk, FlagsOk, EvidenceOk, IssueOk, DeletionOk, CleanedUp;
    OpIsOk(w, o);
    CleanupActs(w, o, applied, verified, u);
    ActedLater(w, u, o);
    LeavingIsOk(w, u, w.ops[o]);
    CleanupKeepsRest(w, o, applied, verified, u);
    CleanupKeepsExits(w, o, applied, verified, u);
    Carry(w, u, {o});
  }

  // ------------------------------------------------------------------
  // Everybody else
  // ------------------------------------------------------------------

  /** Time, talk, balance moves, restarts, rearming: nothing the invariant watches can be lost. */
  ghost predicate Calm(w: World, u: World) {
    && u == w.(now := u.now, issue := u.issue, sessions := u.sessions, balance := u.balance, units := u.units,
               restartedAt := u.restartedAt)
    && w.now <= u.now && w.issue <= u.issue
  }

  lemma CalmLater(w: World, u: World)
    requires Calm(w, u)
    ensures Later(w, u)
  { }

  lemma CalmKeepsRest(w: World, u: World)
    requires DirInv(w) && SubInv(w) && BindInv(w) && ExitInv(w) && Calm(w, u)
    ensures DirInv(u) && SubInv(u) && BindInv(u) && ExitInv(u)
  { }

  lemma CalmKeeps(w: World, u: World)
    requires Inv(w) && Calm(w, u)
    ensures Later(w, u) && Inv(u)
  {
    hide OpsInv, DirInv, IssueInv, PostInv, SubInv, OwnerInv, BindInv, DeletionInv, ExitInv, StopInv;
    hide Later, OpOk, DeletionOk;
    CalmLater(w, u);
    CalmKeepsRest(w, u);
    Carry(w, u, {});
  }

  predicate IsCalm(e: Event) {
    e.ArmWatcher? || e.ArmSession? || e.Tick? || e.Say? || e.AccountMoves? || e.DatabaseRestart?
  }

  lemma CalmStep(w: World, e: Event, u: World)
    requires IsCalm(e) && Step(w, e) == Some(u)
    ensures Calm(w, u)
  {
    hide Operate;
  }

  lemma StartedLater(w: World, o: OpId, m: Manifest, dir: Dir, run: RunId, u: World)
    requires OperatorStarted(w, o, m, dir, run) == Some(u)
    ensures Later(w, u) && OpOk(u, u.ops[o]) && u == w.(ops := w.ops[o := u.ops[o]])
  { }

  lemma StartedKeepsRest(w: World, o: OpId, m: Manifest, dir: Dir, run: RunId, u: World)
    requires DirInv(w) && SubInv(w) && BindInv(w) && ExitInv(w) && OperatorStarted(w, o, m, dir, run) == Some(u)
    ensures DirInv(u) && SubInv(u) && BindInv(u) && ExitInv(u)
  { }

  lemma StartedKeeps(w: World, o: OpId, m: Manifest, dir: Dir, run: RunId, u: World)
    requires Inv(w) && OperatorStarted(w, o, m, dir, run) == Some(u)
    ensures Later(w, u) && Inv(u)
  {
    hide OpsInv, DirInv, IssueInv, PostInv, SubInv, OwnerInv, BindInv, DeletionInv, ExitInv, StopInv;
    hide Later, OpOk, DeletionOk, OperatorStarted;
    StartedLater(w, o, m, dir, run, u);
    StartedKeepsRest(w, o, m, dir, run, u);
    Carry(w, u, {o});
  }

  /** A watcher begins, learns the id or dies: nothing but its own record changes. */
  ghost predicate OnlyWatches(w: World, u: World) { u == w.(watchers := u.watchers) && WatchersLater(w, u) }

  lemma OnlyWatchesLater(w: World, u: World)
    requires OnlyWatches(w, u)
    ensures Later(w, u)
  { }

  lemma OnlyWatchesKeepsRest(w: World, u: World)
    requires DirInv(w) && SubInv(w) && ExitInv(w) && OnlyWatches(w, u)
    ensures DirInv(u) && SubInv(u) && ExitInv(u)
  { }

  lemma OnlyWatchesKeeps(w: World, u: World)
    requires Inv(w) && OnlyWatches(w, u) && BindInv(u)
    ensures Later(w, u) && Inv(u)
  {
    hide OpsInv, DirInv, IssueInv, PostInv, SubInv, OwnerInv, BindInv, DeletionInv, ExitInv, StopInv;
    hide Later, OpOk, DeletionOk;
    OnlyWatchesLater(w, u);
    OnlyWatchesKeepsRest(w, u);
    Carry(w, u, {});
  }

  predicate IsWatching(e: Event) { e.StartWatcher? || e.PollOwner? || e.WatcherDies? }

  lemma WatchingOnlyWatches(w: World, e: Event, u: World)
    requires BindInv(w) && IsWatching(e) && Step(w, e) == Some(u)
    ensures OnlyWatches(w, u) && BindInv(u)
  {
    hide Operate, Administered;
  }

  /** Only the switch of one subscription changes, and perhaps one deletion is logged. */
  ghost predicate OnlySwitches(w: World, u: World) {
    && u == w.(subs := u.subs, deletions := u.deletions)
    && w.deletions <= u.deletions && SubsLater(w, u)
    && (forall id :: id in u.subs && u.subs[id].origin.By? ==> id in w.subs && w.subs[id].origin.By?)
  }

  lemma OnlySwitchesLater(w: World, u: World)
    requires OnlySwitches(w, u)
    ensures Later(w, u)
  {
    hide SubsLater;
    SameRows(w.owners);
  }

  lemma OnlySwitchesKeepsExits(w: World, u: World)
    requires ExitInv(w) && OnlySwitches(w, u)
    ensures ExitInv(u)
  {
    hide AskedFor;
    forall o | o in u.ops && u.ops[o].pc.Exited? && u.ops[o].created.Some?
      ensures AskedFor(u, o, u.ops[o].created.value)
    {
      AskedForStays(w, u, o, w.ops[o].created.value);
    }
  }

  lemma OnlySwitchesKeepsRest(w: World, u: World)
    requires DirInv(w) && SubInv(w) && BindInv(w) && OnlySwitches(w, u)
    ensures DirInv(u) && SubInv(u) && BindInv(u)
  { }

  lemma OnlySwitchesKeeps(w: World, u: World)
    requires Inv(w) && OnlySwitches(w, u)
    requires forall i :: |w.deletions| <= i < |u.deletions| ==> DeletionOk(u, u.deletions[i])
    ensures Later(w, u) && Inv(u)
  {
    hide OpsInv, DirInv, IssueInv, PostInv, SubInv, OwnerInv, BindInv, DeletionInv, ExitInv, StopInv;
    hide Later, OpOk, DeletionOk;
    OnlySwitchesLater(w, u);
    OnlySwitchesKeepsRest(w, u);
    OnlySwitchesKeepsExits(w, u);
    Carry(w, u, {});
  }

  lemma WatcherDeletesOwned(w: World, r: RunId, applied: bool, verified: bool, u: World)
    requires SubInv(w) && OwnerInv(w) && BindInv(w) && WatcherDeleted(w, r, applied, verified) == Some(u)
    ensures OnlySwitches(w, u) && |u.deletions| == |w.deletions| + 1 && DeletionOk(u, u.deletions[|w.deletions|])
  {
    assert BoughtFor(w, w.watchers[r].m.scope, w.watchers[r].known.value);
  }

  lemma AccountSwitches(w: World, id: SubId, u: World)
    requires ForeignAppears(w, id) == Some(u) || u == w.(subs := Deactivate(w, id))
    ensures OnlySwitches(w, u) && u.deletions == w.deletions
  { }

  /** An inspection records purchases that are all switched off. */
  lemma InspectedKeeps(w: World, u: World)
    requires Inv(w) && Inspected(w) == Some(u)
    ensures Later(w, u) && Inv(u)
  {
    hide OpsInv, DirInv, IssueInv, PostInv, SubInv, OwnerInv, BindInv, DeletionInv, ExitInv, StopInv;
    hide Later, OpOk, DeletionOk, Inspected;
    InspectedLater(w, u);
    InspectedKeepsRest(w, u);
    InspectedKeepsStops(w, u);
    OpsLater(w, u, {});
    KeepPosts(w, u);
    KeepOwners(w, u);
    KeepDeletions(w, u);
  }

  lemma InspectedLater(w: World, u: World)
    requires Inspected(w) == Some(u)
    ensures Later(w, u) && u == w.(inspected := u.inspected)
  { }

  lemma InspectedKeepsRest(w: World, u: World)
    requires DirInv(w) && SubInv(w) && BindInv(w) && ExitInv(w) && Inspected(w) == Some(u)
    ensures DirInv(u) && SubInv(u) && BindInv(u) && ExitInv(u)
  { }

  lemma InspectedKeepsStops(w: World, u: World)
    requires StopInv(w) && Inspected(w) == Some(u)
    ensures StopInv(u)
  {
    forall id | id in w.subs ensures !w.subs[id].active { assert id !in ActiveSubs(w); }
  }

  // Transactions of the commission and closeout scripts.

  lemma AdministerShape(w: World, tx: Tx, u: World)
    requires Administered(w, tx) == Some(u)
    ensures !tx.BindOwner? && Commit(w.owners, tx) == Some(u.owners) && u == w.(owners := u.owners)
    ensures tx.Closeout? ==> tx.id in w.inspected
  {
    hide Commit;
  }

  lemma AdministerLater(w: World, tx: Tx, u: World)
    requires TableInv(w.owners) && PaidNeverFailed(w.owners) && Administered(w, tx) == Some(u)
    ensures Later(w, u) && TableInv(u.owners) && PaidNeverFailed(u.owners)
  {
    hide Administered, Commit, TableInv, PaidNeverFailed, RowsLater;
    AdministerShape(w, tx, u);
    CommitLater(w.owners, tx);
  }

  /** Only an operator's bind ever gives a row an id, and only a closeout stops one. */
  lemma ScriptsBindNothing(t: Table, tx: Tx, s: Scope)
    requires Commit(t, tx).Some? && !tx.BindOwner? && s in Commit(t, tx).value
    ensures var u := Commit(t, tx).value;
      && (u[s].providerId.Some? ==> s in t && t[s].providerId == u[s].providerId)
      && (u[s].state.STOPPED? ==>
            (s in t && t[s] == u[s]) || (tx.Closeout? && tx.scope == s && u[s].providerId == Some(tx.id)))
  { }

  lemma AdministerKeepsOwners(w: World, tx: Tx, u: World)
    requires OwnerInv(w) && Administered(w, tx) == Some(u) && Later(w, u) && TableInv(u.owners) &&
        PaidNeverFailed(u.owners)
    ensures OwnerInv(u)
  {
    hide Administered, Commit, TableInv, PaidNeverFailed, Later;
    AdministerShape(w, tx, u);
    forall s | s in u.owners && u.owners[s].providerId.Some? ensures BoughtFor(u, s, u.owners[s].providerId.value) {
      ScriptsBindNothing(w.owners, tx, s);
      BoughtStays(w, u, s, w.owners[s].providerId.value);
    }
  }

  lemma AdministerKeepsStops(w: World, tx: Tx, u: World)
    requires StopInv(w) && Administered(w, tx) == Some(u)
    ensures StopInv(u)
  {
    hide Administered, Commit;
    AdministerShape(w, tx, u);
    forall s | s in u.owners && u.owners[s].state.STOPPED?
      ensures u.owners[s].providerId.Some? && u.owners[s].providerId.value in u.inspected
    {
      ScriptsBindNothing(w.owners, tx, s);
    }
  }

  lemma AdministerKeepsBindings(w: World, u: World)
    requires OpsInv(w) && BindInv(w) && Later(w, u) && u == w.(owners := u.owners)
    ensures BindInv(u)
  {
    hide Later, OpsInv;
    ReadersHaveIds(w);
    forall x | x in u.ops && (u.ops[x].pc.AtReadback? || u.ops[x].pc.Finished?)
      ensures RowHolds(u, u.ops[x].m.scope, u.ops[x].created)
    {
      RowStays(w, u, w.ops[x].m.scope, w.ops[x].created.value);
    }
    forall r | r in u.watchers && u.watchers[r].known.Some?
      ensures RowHolds(u, u.watchers[r].m.scope, u.watchers[r].known)
      ensures ExactOwner(u.owners[u.watchers[r].m.scope], u.watchers[r].m.owner)
    {
      KnownStays(w, u, r);
    }
  }

  lemma AdministerKeepsRest(w: World, u: World)
    requires DirInv(w) && SubInv(w) && ExitInv(w) && u == w.(owners := u.owners)
    ensures DirInv(u) && SubInv(u) && ExitInv(u)
  { }

  lemma AdministerKeeps(w: World, tx: Tx, u: World)
    requires Inv(w) && Administered(w, tx) == Some(u)
    ensures Later(w, u) && Inv(u)
  {
    hide OpsInv, DirInv, IssueInv, PostInv, SubInv, OwnerInv, BindInv, DeletionInv, ExitInv, StopInv;
    hide Later, OpOk, DeletionOk, Administered, TableInv, PaidNeverFailed, Commit;
    OwnersAreTable(w);
    AdministerShape(w, tx, u);
    AdministerLater(w, tx, u);
    OpsLater(w, u, {});
    KeepPosts(w, u);
    AdministerKeepsOwners(w, tx, u);
    AdministerKeepsStops(w, tx, u);
    AdministerKeepsBindings(w, u);
    AdministerKeepsRest(w, u);
    KeepDeletions(w, u);
  }

  // ------------------------------------------------------------------
  // Every step
  // ------------------------------------------------------------------

  lemma QuietLater(w: World, u: World, o: OpId)
    requires Quiet(w, u, o)
    ensures Later(w, u)
  { }

  lemma UnspendingStepKeeps(w: World, o: OpId, a: OpStep, u: World)
    requires Inv(w) && Operate(w, o, a) == Some(u) && !Spends(w.ops[o], a)
    ensures Later(w, u) && Inv(u)
  {
    OperatorExists(w, o, a, u);
    hide OpsInv, DirInv, IssueInv, PostInv, SubInv, OwnerInv, BindInv, DeletionInv, ExitInv, StopInv;
    hide Later, OpOk, FlagsOk, Operate, Quiet;
    OpIsOk(w, o);
    UnspendingStepIsQuiet(w, o, a);
    QuietLater(w, u, o);
    QuietKeeps(w, u, o);
  }

  lemma OperatorExists(w: World, o: OpId, a: OpStep, u: World)
    requires Operate(w, o, a) == Some(u)
    ensures o in w.ops
  {
    hide Observe, SessionRestored, IntentWritten, IntentAnnouncedBy, Created, Recorded, ReceiptWritten, Bound,
      CleanedUp;
  }

  lemma ActKeeps(w: World, o: OpId, a: OpStep, u: World)
    requires Inv(w) && Operate(w, o, a) == Some(u)
    ensures Later(w, u) && Inv(u)
  {
    hide Inv, Later, Observe, SessionRestored, IntentWritten, IntentAnnouncedBy, Created, Recorded, ReceiptWritten;
    hide Bound, CleanedUp;
    if !Spends(w.ops[o], a) { UnspendingStepKeeps(w, o, a, u); }
    else if a.WriteIntent? { IntentKeeps(w, o, u); }
    else if a.PostCreate? { CreateKeeps(w, o, a.response, u); }
    else if a.BindTransaction? { BindKeeps(w, o, a.answer, u); }
    else { CleanupKeeps(w, o, a.applied, a.verified, u); }
  }

  predicate IsSwitching(e: Event) { e.WatcherDelete? || e.ForeignOn? || e.TurnsOff? }

  lemma SwitchingKeeps(w: World, e: Event, u: World)
    requires Inv(w) && IsSwitching(e) && Step(w, e) == Some(u)
    ensures Later(w, u) && Inv(u)
  {
    hide OpsInv, DirInv, IssueInv, PostInv, SubInv, OwnerInv, BindInv, DeletionInv, ExitInv, StopInv;
    hide Later, OnlySwitches, DeletionOk, WatcherDeleted, ForeignAppears, Deactivate, Operate, Administered;
    match e {
      case WatcherDelete(r, applied, verified) => WatcherDeletesOwned(w, r, applied, verified, u);
      case ForeignOn(id) => AccountSwitches(w, id, u);
      case TurnsOff(id) => AccountSwitches(w, id, u);
    }
    OnlySwitchesKeeps(w, u);
  }

  /** Every step keeps the invariant and takes nothing back. */
  lemma StepKeeps(w: World, e: Event)
    requires Inv(w)
    ensures Later(w, Next(w, e)) && Inv(Next(w, e))
  {
    var s := Step(w, e);
    if s.None? {
      CalmKeeps(w, w);
    } else {
      EnabledStepKeeps(w, e, s.value);
    }
  }

  lemma EnabledStepKeeps(w: World, e: Event, u: World)
    requires Inv(w) && Step(w, e) == Some(u)
    ensures Later(w, u) && Inv(u)
  {
    hide Inv, Later, Operate, OperatorStarted, WatcherStarted, WatcherArmed, OwnerPolled, WatcherDeleted, WatcherDied;
    hide Administered, SessionArmedFor, ForeignAppears, Inspected, Deactivate, Calm, OnlyWatches;
    match e
    case Act(o, a) => ActKeeps(w, o, a, u);
    case StartOperator(o, m, dir, run) => StartedKeeps(w, o, m, dir, run, u);
    case InspectAccount => InspectedKeeps(w, u);
    case Administer(tx) => AdministerKeeps(w, tx, u);
    case _ =>
      if IsCalm(e) { CalmStep(w, e, u); CalmKeeps(w, u); }
      else if IsWatching(e) { WatchingKeeps(w, e, u); }
      else { SwitchingKeeps(w, e, u); }
  }

  lemma WatchingKeeps(w: World, e: Event, u: World)
    requires Inv(w) && IsWatching(e) && Step(w, e) == Some(u)
    ensures Later(w, u) && Inv(u)
  {
    hide OpsInv, DirInv, IssueInv, PostInv, SubInv, OwnerInv, BindInv, DeletionInv, ExitInv, StopInv;
    hide Later, OnlyWatches, Step;
    WatchingOnlyWatches(w, e, u);
    OnlyWatchesKeeps(w, u);
  }
}
