/**
 When each step of the paid protocol can be taken, and what it leaves, in the
 columns and clock readings the scripts look at.
 */
module PaidGuards {
  import opened Common
  import opened OwnerLedger
  import opened PaidProtocol

  // ------------------------------------------------------------------
  // The operator: where it may go, place by place
  // ------------------------------------------------------------------

  /** The owner row carries the commission's receiver, authorization, ticket, start and stop. */
  predicate Pinned(w: World, m: Manifest) {
    && m.scope in w.owners
    && var f := w.owners[m.scope].frozen;
    && f.receiver == m.owner.receiver && f.authorization == m.owner.authorization && f.ticket == m.owner.ticket
    && f.start == m.owner.start && f.stop == m.owner.stop
  }

  predicate Unbound(w: World, m: Manifest) {
    Pinned(w, m) && w.owners[m.scope].state == PREPARED && w.owners[m.scope].providerId == None
  }

  /** A bot's receipt at most twelve minutes old for this scope, runner, receiver and stop, and its STOP run alive. */
  ghost predicate StopArmed(w: World, op: Op) {
    && op.stopRun in w.watchers
    && var x := w.watchers[op.stopRun];
    && x.m.scope == op.m.scope && x.m.head == op.m.head && x.started <= w.now && x.died == None
    && exists k :: 0 <= k < |w.issue| && RecentReceipt(w.issue[k], op.m, w.now)
  }

  predicate RecentReceipt(c: Comment, m: Manifest, now: int) {
    c.bot && -10000 <= now - c.at <= 720000 && c.body == Armed(m.scope, m.head, m.owner.receiver, m.owner.stop)
  }

  predicate NothingActive(w: World) { forall id :: id in w.subs ==> !w.subs[id].active }

  predicate PostWindow(w: World, m: Manifest) {
    m.owner.stop - m.owner.start == 3600000 && m.owner.start - 90000 <= w.now <= m.owner.start + 15000
  }

  /** An armed and unused session row that expires with the commission. */
  predicate CallbackArmed(w: World, m: Manifest) {
    && m.scope in w.sessions && w.sessions[m.scope].armed && w.sessions[m.scope].providerId == None
    && w.sessions[m.scope].expires == m.owner.expires
  }

  /** The bind goes through on a PREPARED row, for an id no row carries, or on a row already bound to it. */
  ghost predicate Bindable(w: World, m: Manifest, id: SubId) {
    && Pinned(w, m) && m.scope in w.sessions && w.sessions[m.scope].armed && w.sessions[m.scope].providerId == None
    && var r := w.owners[m.scope];
    && (|| (r.state == PREPARED && |id| > 0 && forall x :: x in w.owners ==> w.owners[x].providerId != Some(id))
        || (r.state == ACTIVE && r.providerId == Some(id)))
  }

  /** What lets an operator go on from the place it is at, apart from raising or being killed. */
  ghost predicate MayMove(w: World, op: Op, to: Pc) {
    var m, s := op.m, op.m.scope;
    match op.pc
    case AtIssue => to == AtFiles && forall k :: 0 <= k < |w.issue| ==> w.issue[k].body != Intent(s)
    case AtFiles =>
      && to == AtOwner && op.dir !in w.intents && op.dir !in w.receipts
      && m.owner.start - 540000 <= w.now <= m.owner.start + 15000
    case AtOwner => to == AtSession(false, false) && op.dir !in w.intents && Unbound(w, m)
    case AtSession(last, rearmed) =>
      && op.dir !in w.intents
      && (|| (to == (if last then AtBalance(true) else AtLive(false)) && CallbackArmed(w, m))
          || (to == AtRearmLive(last) && s !in w.sessions && !rearmed))
    case AtRearmLive(last) => to == AtRearmBalance(last) && StopArmed(w, op)
    case AtRearmBalance(last) => to == AtRearmList(last) && w.balance == m.credits && w.units >= 12
    case AtRearmList(last) => to == AtRestore(last) && NothingActive(w)
    case AtRestore(last) =>
      && to == AtSession(last, true) && Unbound(w, m) && s !in w.sessions
      && w.owners[s].frozen.expires == m.owner.expires && w.owners[s].frozen.created < w.restartedAt <= w.now
      && m.owner.start - 600000 <= w.now <= m.owner.start - 30000
    case AtLive(last) => to == (if last then AtSession(true, false) else AtBalance(false)) && StopArmed(w, op)
    case AtBalance(last) => to == AtList(last) && w.balance == m.credits && (last || w.units >= 12)
    case AtList(last) => to == (if last then AtClock else AtWait) && NothingActive(w)
    case AtWait => to == AtLive(true) && m.owner.start <= w.now && PostWindow(w, m)
    case AtClock => to == AtFileIntent && PostWindow(w, m)
    case AtFileIntent => to == AtAnnounce && op.dir !in w.intents
    case AtAnnounce => to == AtLastClock
    case AtLastClock => to == AtCreate && PostWindow(w, m)
    case AtCreate => to == AtRecord
    case AtRecord =>
      && to == AtFileReceipt && op.created.Some? && 6 <= |op.created.value| <= 256
      && forall i :: 0 <= i < |op.created.value| ==> op.created.value[i] != '\r' && op.created.value[i] != '\n'
    case AtFileReceipt => to == AtBind && op.dir !in w.receipts
    case AtBind => to == AtReadback && op.created.Some? && Bindable(w, m, op.created.value)
    case AtReadback =>
      to == Finished && s in w.owners && w.owners[s].state == ACTIVE && w.owners[s].providerId == op.created
    case InCatch => to == Exited
    case _ => false
  }

  /** A live operator can be killed anywhere, and can raise anywhere but in its catch block. */
  predicate MayGiveUp(pc: Pc, to: Pc) {
    pc != Finished && pc != Exited && pc != Crashed && (to == Crashed || (to == InCatch && pc != InCatch))
  }

  /** Some step of the operator leads to this place. */
  ghost predicate CanMove(w: World, o: OpId, to: Pc) { exists a :: MovesBy(w, o, a, to) }

  ghost predicate MovesBy(w: World, o: OpId, a: OpStep, to: Pc) {
    var r := Step(w, Act(o, a));
    r.Some? && o in r.value.ops && r.value.ops[o].pc == to
  }

  /** The table is the script: an operator can go exactly where it says, on exactly these readings. */
  lemma MovesExactly(w: World, o: OpId, to: Pc)
    requires o in w.ops && TableInv(w.owners)
    ensures CanMove(w, o, to) <==> MayMove(w, w.ops[o], to) || MayGiveUp(w.ops[o].pc, to)
  {
    hide MovesBy, MayMove, TableInv;
    if CanMove(w, o, to) {
      var a :| MovesBy(w, o, a, to);
      OnlyMoves(w, o, a, to);
    }
    if MayGiveUp(w.ops[o].pc, to) { GivingUp(w, o, if to == Crashed then Crash else Raise, to); }
    if MayMove(w, w.ops[o], to) { var a := WayTo(w, o, to); }
  }

  lemma GivingUp(w: World, o: OpId, a: OpStep, to: Pc)
    requires o in w.ops && (a == Crash || a == Raise)
    ensures MovesBy(w, o, a, to) <==> MayGiveUp(w.ops[o].pc, to) && to == if a == Crash then Crashed else InCatch
  { }

  lemma OnlyMoves(w: World, o: OpId, a: OpStep, to: Pc)
    requires o in w.ops && TableInv(w.owners) && MovesBy(w, o, a, to)
    ensures MayMove(w, w.ops[o], to) || MayGiveUp(w.ops[o].pc, to)
  {
    hide MovesBy, MayMove, TableInv;
    match a {
      case Crash => GivingUp(w, o, a, to);
      case Raise => GivingUp(w, o, a, to);
      case CheckLive(k) => LiveMoves(w, o, k, to);
      case BindTransaction(answer) => BindMoves(w, o, answer, to);
      case Announce(_) => AnnounceMoves(w, o, a, to);
      case PostCreate(_) => PostMoves(w, o, a, to);
      case Cleanup(_, _) => CatchMoves(w, o, a, to);
      case _ => if Reads(a) { ReadMoves(w, o, a, to); } else { FileMoves(w, o, a, to); }
    }
  }

  predicate Reads(a: OpStep) {
    a.CheckIssue? || a.CheckFiles? || a.ReadOwner? || a.ReadSession? || a.CheckBalance? || a.CheckList? ||
    a.ReachStart? || a.CheckClock? || a.ReadBack?
  }

  /** The step that stands at each place, where there is only one. */
  function Task(pc: Pc): Option<OpStep> {
    match pc
    case AtIssue => Some(CheckIssue)
    case AtFiles => Some(CheckFiles)
    case AtOwner => Some(ReadOwner)
    case AtSession(_, _) => Some(ReadSession)
    case AtRearmBalance(_) => Some(CheckBalance)
    case AtRearmList(_) => Some(CheckList)
    case AtRestore(_) => Some(RestoreSession)
    case AtBalance(_) => Some(CheckBalance)
    case AtList(_) => Some(CheckList)
    case AtWait => Some(ReachStart)
    case AtClock => Some(CheckClock)
    case AtLastClock => Some(CheckClock)
    case AtFileIntent => Some(WriteIntent)
    case AtRecord => Some(Record)
    case AtFileReceipt => Some(WriteReceipt)
    case AtReadback => Some(ReadBack)
    case _ => None
  }

  lemma ActiveIsEmpty(w: World)
    ensures NothingActive(w) <==> ActiveSubs(w) == {}
  {
    forall id | id in w.subs ensures w.subs[id].active <==> id in ActiveSubs(w) { }
  }

  /** A reading step answers with the operator's new record. */
  lemma Reading(w: World, o: OpId, a: OpStep, to: Pc)
    requires o in w.ops && (Reads(a) || a.CheckLive?)
    ensures var r := Observe(w, w.ops[o], a); MovesBy(w, o, a, to) <==> r.Some? && r.value.pc == to
  {
    hide Observe;
  }

  lemma ReadMoves(w: World, o: OpId, a: OpStep, to: Pc)
    requires o in w.ops && Reads(a)
    ensures MovesBy(w, o, a, to) <==> Task(w.ops[o].pc) == Some(a) && MayMove(w, w.ops[o], to)
  {
    hide MovesBy, MayMove, Observe;
    Reading(w, o, a, to);
    var op := w.ops[o];
    if Task(op.pc) != Some(a) {
      OutOfPlace(w, op, a);
    } else {
      match op.pc {
        case AtIssue => ThreadAnswers(w, op, to);
        case AtFiles => FilesAnswer(w, op, to);
        case AtOwner => OwnerAnswers(w, op, to);
        case AtSession(_, _) => SessionAnswers(w, op, to);
        case AtBalance(_) => BalanceAnswers(w, op, to);
        case AtRearmBalance(_) => BalanceAnswers(w, op, to);
        case AtList(_) => ListAnswers(w, op, to);
        case AtRearmList(_) => ListAnswers(w, op, to);
        case AtWait => StartAnswers(w, op, to);
        case AtClock => ClockAnswers(w, op, to);
        case AtLastClock => ClockAnswers(w, op, to);
        case AtReadback => ReadbackAnswers(w, op, to);
      }
    }
  }

  lemma OutOfPlace(w: World, op: Op, a: OpStep)
    requires Reads(a) && Task(op.pc) != Some(a)
    ensures Observe(w, op, a).None?
  {
    hide IntentAnnounced, ExactOwner, SessionArmed, ActiveSubs, MayCreateInTime;
  }

  lemma ThreadAnswers(w: World, op: Op, to: Pc)
    requires op.pc.AtIssue?
    ensures var r := Observe(w, op, CheckIssue); (r.Some? && r.value.pc == to) <==> MayMove(w, op, to)
  { }

  lemma FilesAnswer(w: World, op: Op, to: Pc)
    requires op.pc.AtFiles?
    ensures var r := Observe(w, op, CheckFiles); (r.Some? && r.value.pc == to) <==> MayMove(w, op, to)
  { }

  lemma OwnerAnswers(w: World, op: Op, to: Pc)
    requires op.pc.AtOwner?
    ensures var r := Observe(w, op, ReadOwner); (r.Some? && r.value.pc == to) <==> MayMove(w, op, to)
  { }

  lemma SessionAnswers(w: World, op: Op, to: Pc)
    requires op.pc.AtSession?
    ensures var r := Observe(w, op, ReadSession); (r.Some? && r.value.pc == to) <==> MayMove(w, op, to)
  { }

  lemma BalanceAnswers(w: World, op: Op, to: Pc)
    requires op.pc.AtBalance? || op.pc.AtRearmBalance?
    ensures var r := Observe(w, op, CheckBalance); (r.Some? && r.value.pc == to) <==> MayMove(w, op, to)
  { }

  lemma ListAnswers(w: World, op: Op, to: Pc)
    requires op.pc.AtList? || op.pc.AtRearmList?
    ensures var r := Observe(w, op, CheckList); (r.Some? && r.value.pc == to) <==> MayMove(w, op, to)
  {
    hide ActiveSubs, NothingActive;
    ActiveIsEmpty(w);
  }

  lemma StartAnswers(w: World, op: Op, to: Pc)
    requires op.pc.AtWait?
    ensures var r := Observe(w, op, ReachStart); (r.Some? && r.value.pc == to) <==> MayMove(w, op, to)
  { }

  lemma ClockAnswers(w: World, op: Op, to: Pc)
    requires op.pc.AtClock? || op.pc.AtLastClock?
    ensures var r := Observe(w, op, CheckClock); (r.Some? && r.value.pc == to) <==> MayMove(w, op, to)
  { }

  lemma ReadbackAnswers(w: World, op: Op, to: Pc)
    requires op.pc.AtReadback?
    ensures var r := Observe(w, op, ReadBack); (r.Some? && r.value.pc == to) <==> MayMove(w, op, to)
  { }

  /** A writing step answers with the new world. */
  lemma Writing(w: World, o: OpId, a: OpStep, to: Pc)
    ensures var r := Operate(w, o, a);
      MovesBy(w, o, a, to) <==> r.Some? && o in r.value.ops && r.value.ops[o].pc == to
  {
    hide Operate;
  }

  lemma FileMoves(w: World, o: OpId, a: OpStep, to: Pc)
    requires o in w.ops && (a.RestoreSession? || a.WriteIntent? || a.Record? || a.WriteReceipt?)
    ensures MovesBy(w, o, a, to) <==> Task(w.ops[o].pc) == Some(a) && MayMove(w, w.ops[o], to)
  {
    hide MovesBy, MayMove;
    if Task(w.ops[o].pc) != Some(a) {
      NotFiled(w, o, a, to);
    } else {
      match a {
        case RestoreSession => RestoreMoves(w, o, to);
        case WriteIntent => IntentMoves(w, o, to);
        case Record => RecordMoves(w, o, to);
        case WriteReceipt => ReceiptMoves(w, o, to);
      }
    }
  }

  lemma NotFiled(w: World, o: OpId, a: OpStep, to: Pc)
    requires o in w.ops && (a.RestoreSession? || a.WriteIntent? || a.Record? || a.WriteReceipt?)
    requires Task(w.ops[o].pc) != Some(a)
    ensures !MovesBy(w, o, a, to)
  {
    hide MovesBy, ExactOwner, Recoverable, RestoreWindow;
    Writing(w, o, a, to);
  }

  lemma RestoreMoves(w: World, o: OpId, to: Pc)
    requires o in w.ops && w.ops[o].pc.AtRestore?
    ensures MovesBy(w, o, RestoreSession, to) <==> MayMove(w, w.ops[o], to)
  {
    hide MovesBy;
    Writing(w, o, RestoreSession, to);
  }

  lemma IntentMoves(w: World, o: OpId, to: Pc)
    requires o in w.ops && w.ops[o].pc.AtFileIntent?
    ensures MovesBy(w, o, WriteIntent, to) <==> MayMove(w, w.ops[o], to)
  {
    hide MovesBy;
    Writing(w, o, WriteIntent, to);
  }

  lemma RecordMoves(w: World, o: OpId, to: Pc)
    requires o in w.ops && w.ops[o].pc.AtRecord?
    ensures MovesBy(w, o, Record, to) <==> MayMove(w, w.ops[o], to)
  {
    hide MovesBy;
    Writing(w, o, Record, to);
  }

  lemma ReceiptMoves(w: World, o: OpId, to: Pc)
    requires o in w.ops && w.ops[o].pc.AtFileReceipt?
    ensures MovesBy(w, o, WriteReceipt, to) <==> MayMove(w, w.ops[o], to)
  {
    hide MovesBy;
    Writing(w, o, WriteReceipt, to);
  }

  lemma LiveMoves(w: World, o: OpId, k: nat, to: Pc)
    requires o in w.ops
    ensures MovesBy(w, o, CheckLive(k), to) ==>
      (w.ops[o].pc.AtLive? || w.ops[o].pc.AtRearmLive?) && MayMove(w, w.ops[o], to)
    ensures (w.ops[o].pc.AtLive? || w.ops[o].pc.AtRearmLive?) && MayMove(w, w.ops[o], to) &&
            k < |w.issue| && RecentReceipt(w.issue[k], w.ops[o].m, w.now) ==>
      MovesBy(w, o, CheckLive(k), to)
  {
    hide MovesBy;
    Reading(w, o, CheckLive(k), to);
    hide SafetyLive, StopArmed, MayMove;
    StopIsArmed(w, w.ops[o], k);
    LiveAnswers(w, w.ops[o], k, to);
  }

  lemma StopIsArmed(w: World, op: Op, k: nat)
    ensures SafetyLive(w, op, k) ==> StopArmed(w, op)
    ensures StopArmed(w, op) && k < |w.issue| && RecentReceipt(w.issue[k], op.m, w.now) ==> SafetyLive(w, op, k)
  { }

  lemma LiveAnswers(w: World, op: Op, k: nat, to: Pc)
    ensures var r := Observe(w, op, CheckLive(k));
      (r.Some? && r.value.pc == to) <==>
        && SafetyLive(w, op, k) && (op.pc.AtLive? || op.pc.AtRearmLive?)
        && to == if op.pc.AtLive? then (if op.pc.last then AtSession(true, false) else AtBalance(false))
                 else AtRearmBalance(op.pc.last)
    ensures op.pc.AtLive? || op.pc.AtRearmLive? ==>
      (MayMove(w, op, to) <==>
        && StopArmed(w, op)
        && to == if op.pc.AtLive? then (if op.pc.last then AtSession(true, false) else AtBalance(false))
                 else AtRearmBalance(op.pc.last))
  {
    hide SafetyLive, StopArmed;
  }

  lemma AnnounceMoves(w: World, o: OpId, a: OpStep, to: Pc)
    requires o in w.ops && a.Announce?
    ensures MovesBy(w, o, a, to) <==>
      w.ops[o].pc == AtAnnounce && if a.answered then MayMove(w, w.ops[o], to) else to == InCatch
  {
    hide MovesBy;
    Writing(w, o, a, to);
  }

  lemma PostMoves(w: World, o: OpId, a: OpStep, to: Pc)
    requires o in w.ops && a.PostCreate?
    ensures MovesBy(w, o, a, to) <==>
      && w.ops[o].pc == AtCreate && (!a.response.NothingMade? ==> a.response.id !in w.subs && |a.response.id| > 0)
      && if a.response.Returned? then MayMove(w, w.ops[o], to) else to == InCatch
  {
    hide MovesBy;
    Writing(w, o, a, to);
  }

  lemma CatchMoves(w: World, o: OpId, a: OpStep, to: Pc)
    requires o in w.ops && a.Cleanup?
    ensures MovesBy(w, o, a, to) <==> w.ops[o].pc == InCatch && MayMove(w, w.ops[o], to)
  {
    hide MovesBy, CleanedUp, MayMove;
    Writing(w, o, a, to);
    CatchAnswers(w, o, w.ops[o], a);
    if w.ops[o].pc == InCatch { CatchEnds(w, w.ops[o], to); }
  }

  lemma CatchAnswers(w: World, o: OpId, op: Op, a: OpStep)
    requires a.Cleanup?
    ensures var r := CleanedUp(w, o, op, a.applied, a.verified);
      (r.Some? <==> op.pc == InCatch) && (r.Some? ==> o in r.value.ops && r.value.ops[o].pc == Exited)
  {
    hide Deactivate;
  }

  lemma CatchEnds(w: World, op: Op, to: Pc)
    requires op.pc == InCatch
    ensures MayMove(w, op, to) <==> to == Exited
  { }

  lemma BindMoves(w: World, o: OpId, answer: CommitAnswer, to: Pc)
    requires o in w.ops && TableInv(w.owners)
    ensures MovesBy(w, o, BindTransaction(answer), to) <==>
      && w.ops[o].pc == AtBind && MayMove(w, w.ops[o], AtReadback)
      && to == if answer.Acknowledged? then AtReadback else InCatch
  {
    hide MovesBy, Bound, Bindable, TableInv;
    Writing(w, o, BindTransaction(answer), to);
    var op := w.ops[o];
    if op.created.Some? { BoundWhenBindable(w, o, op, answer); }
    BoundAnswers(w, o, op, answer);
  }

  lemma BoundAnswers(w: World, o: OpId, op: Op, answer: CommitAnswer)
    requires o in w.ops
    ensures var r := Bound(w, o, op, answer);
      r.Some? ==> op.pc == AtBind && op.created.Some? && o in r.value.ops &&
                  r.value.ops[o].pc == if answer.Acknowledged? then AtReadback else InCatch
  {
    hide Commit;
  }

  lemma BoundWhenBindable(w: World, o: OpId, op: Op, answer: CommitAnswer)
    requires op.created.Some? && TableInv(w.owners)
    ensures Bound(w, o, op, answer).Some? <==> op.pc == AtBind && Bindable(w, op.m, op.created.value)
  {
    hide Commit, TableInv, With;
    BindCommitsExactly(w.owners, op.m.scope, op.m.owner, op.created.value);
  }

  /** A provider id longer than every one handed out so far. */
  lemma {:induction false} UnusedId(ids: set<SubId>) returns (id: SubId)
    ensures |id| > 0 && forall x :: x in ids ==> |x| < |id|
    decreases |ids|
  {
    if ids == {} {
      id := "x";
    } else {
      var y :| y in ids;
      var rest := UnusedId(ids - {y});
      id := rest + y;
      forall x | x in ids ensures |x| < |id| { if x != y { assert x in ids - {y}; } }
    }
  }

  lemma WayTo(w: World, o: OpId, to: Pc) returns (a: OpStep)
    requires o in w.ops && TableInv(w.owners) && MayMove(w, w.ops[o], to)
    ensures MovesBy(w, o, a, to)
  {
    hide MovesBy, TableInv, MayMove, Task;
    var pc := w.ops[o].pc;
    match pc {
      case AtLive(_) => a := LiveWay(w, o, to);
      case AtRearmLive(_) => a := LiveWay(w, o, to);
      case AtAnnounce =>
        a := Announce(true);
        AnnounceMoves(w, o, a, to);
      case AtCreate =>
        var id := UnusedId(w.subs.Keys);
        a := PostCreate(Returned(id));
        PostMoves(w, o, a, to);
      case AtBind =>
        a := BindTransaction(Acknowledged);
        OnlyToReadback(w, w.ops[o], to);
        BindMoves(w, o, Acknowledged, to);
      case InCatch =>
        a := Cleanup(true, true);
        CatchMoves(w, o, a, to);
      case _ =>
        NoOtherPlace(w, w.ops[o], to);
        a := TaskWay(w, o, to);
    }
  }

  lemma TaskWay(w: World, o: OpId, to: Pc) returns (a: OpStep)
    requires o in w.ops && MayMove(w, w.ops[o], to) && Task(w.ops[o].pc).Some?
    ensures MovesBy(w, o, a, to)
  {
    hide MovesBy, MayMove;
    a := Task(w.ops[o].pc).value;
    if Reads(a) { ReadMoves(w, o, a, to); } else { FileMoves(w, o, a, to); }
  }

  lemma OnlyToReadback(w: World, op: Op, to: Pc)
    requires MayMove(w, op, to) && op.pc == AtBind
    ensures to == AtReadback
  { }

  lemma NoOtherPlace(w: World, op: Op, to: Pc)
    requires MayMove(w, op, to)
    requires !op.pc.AtLive? && !op.pc.AtRearmLive? && !op.pc.AtAnnounce? && !op.pc.AtCreate?
    requires !op.pc.AtBind? && !op.pc.InCatch?
    ensures Task(op.pc).Some?
  { }

  lemma LiveWay(w: World, o: OpId, to: Pc) returns (a: OpStep)
    requires o in w.ops && MayMove(w, w.ops[o], to) && (w.ops[o].pc.AtLive? || w.ops[o].pc.AtRearmLive?)
    ensures MovesBy(w, o, a, to)
  {
    hide MovesBy;
    var k: nat :| k < |w.issue| && RecentReceipt(w.issue[k], w.ops[o].m, w.now);
    a := CheckLive(k);
    LiveMoves(w, o, k, to);
  }

  // ------------------------------------------------------------------
  // What each step writes
  // ------------------------------------------------------------------

  /** Another operator's record, and this one's commission and directory, never change. */
  ghost predicate OwnRecordOnly(w: World, o: OpId, u: World) {
    && o in w.ops && o in u.ops && u.ops == w.ops[o := u.ops[o]]
    && u.ops[o].m == w.ops[o].m && u.ops[o].dir == w.ops[o].dir && u.ops[o].stopRun == w.ops[o].stopRun
  }

  /** One purchase off, the others as they were. */
  ghost predicate SwitchedOff(before: map<SubId, Sub>, after: map<SubId, Sub>, id: SubId) {
    && after.Keys == before.Keys
    && forall x :: x in before ==> after[x] == if x == id then Sub(before[x].origin, false) else before[x]
  }

  /** What a step of operator `o` leaves behind, beside its own record. */
  ghost predicate Wrote(w: World, o: OpId, a: OpStep, u: World)
    requires o in w.ops && o in u.ops
  {
    var op, after, s := w.ops[o], u.ops[o], w.ops[o].m.scope;
    match a
    case WriteIntent => u == w.(ops := u.ops, intents := w.intents[op.dir := o])
    case Announce(_) =>
      u == w.(ops := u.ops, issue := w.issue + [Comment(false, w.now, Intent(s))]) && after.announced == Some(|w.issue|)
    case PostCreate(r) =>
      && u == w.(ops := u.ops, posts := w.posts + [Post(o, s, op.dir, w.now, op.evidence)], subs := u.subs)
      && u.subs == (if r.NothingMade? then w.subs else w.subs[r.id := Sub(By(o), true)])
      && after.created == if r.Returned? then Some(r.id) else None
    case Record => u == w.(ops := u.ops, issue := w.issue + [Comment(false, w.now, Receipt(s))])
    case WriteReceipt => u == w.(ops := u.ops, receipts := w.receipts[op.dir := o])
    case RestoreSession =>
      u == w.(ops := u.ops, sessions := w.sessions[s := SessionRow(true, None, op.m.owner.expires)])
    case BindTransaction(answer) =>
      if answer.NotApplied? then u == w.(ops := u.ops)
      else
        && s in w.owners && s in w.sessions
        && u == w.(ops := u.ops, owners := u.owners, sessions := u.sessions)
        && OnlyRow(w.owners, u.owners, s, Row(w.owners[s].frozen, ACTIVE, op.created, None, None, None))
        && u.sessions == w.sessions[s := SessionRow(false, op.created, w.sessions[s].expires)]
    case Cleanup(applied, verified) =>
      if op.created.None? then u == w.(ops := u.ops)
      else
        && u == w.(ops := u.ops, subs := u.subs, deletions := u.deletions)
        && u.deletions == w.deletions + [Deletion(Operator(o), op.created.value, verified)]
        && if applied || verified then SwitchedOff(w.subs, u.subs, op.created.value) else u.subs == w.subs
    case _ => u == w.(ops := u.ops)
  }

  lemma StepWrites(w: World, o: OpId, a: OpStep, u: World)
    requires o in w.ops && TableInv(w.owners) && Step(w, Act(o, a)) == Some(u)
    ensures OwnRecordOnly(w, o, u) && Wrote(w, o, a, u)
  {
    hide TableInv, Commit;
    match a {
      case BindTransaction(answer) => BindWrites(w, o, answer, u);
      case PostCreate(_) => PostWrites(w, o, a, u);
      case Cleanup(_, _) => CleanupWrites(w, o, a, u);
      case _ => if PutsOnRecord(a) { RecordWrites(w, o, a, u); } else { ReadWrites(w, o, a, u); }
    }
  }

  predicate PutsOnRecord(a: OpStep) {
    a.WriteIntent? || a.Announce? || a.Record? || a.WriteReceipt? || a.RestoreSession?
  }

  lemma ReadWrites(w: World, o: OpId, a: OpStep, u: World)
    requires o in w.ops && (Reads(a) || a.CheckLive? || a.Raise? || a.Crash?) && Step(w, Act(o, a)) == Some(u)
    ensures OwnRecordOnly(w, o, u) && u == w.(ops := u.ops)
  {
    hide IntentAnnounced, ExactOwner, SessionArmed, ActiveSubs, MayCreateInTime, SafetyLive;
  }

  lemma RecordWrites(w: World, o: OpId, a: OpStep, u: World)
    requires o in w.ops && PutsOnRecord(a) && Step(w, Act(o, a)) == Some(u)
    ensures OwnRecordOnly(w, o, u) && Wrote(w, o, a, u)
  {
    hide ExactOwner, RestoreWindow, Recoverable;
  }

  lemma PostWrites(w: World, o: OpId, a: OpStep, u: World)
    requires o in w.ops && a.PostCreate? && Step(w, Act(o, a)) == Some(u)
    ensures OwnRecordOnly(w, o, u) && Wrote(w, o, a, u)
  { }

  lemma CleanupWrites(w: World, o: OpId, a: OpStep, u: World)
    requires o in w.ops && a.Cleanup? && Step(w, Act(o, a)) == Some(u)
    ensures OwnRecordOnly(w, o, u) && Wrote(w, o, a, u)
  {
    hide Step;
    CleaningUp(w, o, a);
    CleanedUpWrites(w, o, a, u);
  }

  lemma CleanedUpWrites(w: World, o: OpId, a: OpStep, u: World)
    requires o in w.ops && a.Cleanup? && CleanedUp(w, o, w.ops[o], a.applied, a.verified) == Some(u)
    ensures OwnRecordOnly(w, o, u) && Wrote(w, o, a, u)
  {
    hide SwitchedOff, Deactivate;
    if w.ops[o].created.Some? { Deactivates(w, w.ops[o].created.value); }
  }

  lemma CleaningUp(w: World, o: OpId, a: OpStep)
    requires o in w.ops && a.Cleanup?
    ensures Step(w, Act(o, a)) == CleanedUp(w, o, w.ops[o], a.applied, a.verified)
  {
    hide CleanedUp;
  }

  lemma Deactivates(w: World, id: SubId)
    ensures SwitchedOff(w.subs, Deactivate(w, id), id)
  { }

  lemma BindWrites(w: World, o: OpId, answer: CommitAnswer, u: World)
    requires o in w.ops && TableInv(w.owners) && Step(w, Act(o, BindTransaction(answer))) == Some(u)
    ensures OwnRecordOnly(w, o, u) && Wrote(w, o, BindTransaction(answer), u)
  {
    hide TableInv, Commit, OnlyRow;
    var op := w.ops[o];
    if op.created.Some? { BindCommitsExactly(w.owners, op.m.scope, op.m.owner, op.created.value); }
  }

  // ------------------------------------------------------------------
  // Everyone else
  // ------------------------------------------------------------------

  /** When the events around the operators can happen. */
  ghost predicate MayHappen(w: World, e: Event) {
    match e
    case Act(_, _) => false
    case StartOperator(o, m, _, _) => o !in w.ops && Commissionable(m)
    case StartWatcher(r, m) =>
      && r !in w.watchers && Commissionable(m)
      && m.owner.start - 600000 <= w.now <= m.owner.start + 60000 && w.now <= m.owner.stop - 30000
    case ArmWatcher(r) =>
      && Alive(w, r)
      && var m := w.watchers[r].m;
      Unbound(w, m) && w.balance == m.credits && w.units >= 12 && NothingActive(w)
    case PollOwner(r) =>
      && Alive(w, r) && Pinned(w, w.watchers[r].m)
      && var id := w.owners[w.watchers[r].m.scope].providerId;
      id != None && (w.watchers[r].known == None || w.watchers[r].known == id)
    case WatcherDelete(r, _, _) => Alive(w, r) && w.watchers[r].known != None
    case WatcherDies(r) => Alive(w, r)
    case InspectAccount => NothingActive(w)
    case Administer(tx) => !tx.BindOwner? && (tx.Closeout? ==> tx.id in w.inspected) && Commit(w.owners, tx).Some?
    case ArmSession(s) => s in w.owners && w.owners[s].state == PREPARED && s !in w.sessions
    case ForeignOn(id) => id in w.subs ==> w.subs[id].origin == Foreign
    case _ => true
  }

  predicate Commissionable(m: Manifest) {
    m.owner.stop - m.owner.start == 3600000 && m.owner.expires - m.owner.stop == 1200000 && m.credits >= 500
  }

  predicate Alive(w: World, r: RunId) { r in w.watchers && w.watchers[r].died == None }

  lemma EventsHappenExactly(w: World, e: Event)
    requires !e.Act? && TableInv(w.owners)
    ensures Step(w, e).Some? <==> MayHappen(w, e)
  {
    hide Commit, ActiveSubs, NothingActive, Operate;
    ActiveIsEmpty(w);
  }

  /** What the events around the operators leave. */
  ghost predicate Happened(w: World, e: Event, u: World) {
    match e
    case Act(_, _) => false
    case StartOperator(o, m, dir, run) =>
      && u == w.(ops := u.ops) && u.ops.Keys == w.ops.Keys + {o} && (forall x :: x in w.ops ==> u.ops[x] == w.ops[x])
      && u.ops[o].m == m && u.ops[o].dir == dir && u.ops[o].stopRun == run && u.ops[o].pc == AtIssue
    case StartWatcher(r, m) => u == w.(watchers := w.watchers[r := Watcher(m, w.now, None, None)])
    case ArmWatcher(r) =>
      && r in w.watchers
      && var m := w.watchers[r].m;
      u == w.(issue := w.issue + [Comment(true, w.now, Armed(m.scope, m.head, m.owner.receiver, m.owner.stop))])
    case PollOwner(r) =>
      && r in w.watchers && w.watchers[r].m.scope in w.owners
      && var x := w.watchers[r];
      u == w.(watchers := w.watchers[r := Watcher(x.m, x.started, x.died, w.owners[x.m.scope].providerId)])
    case WatcherDelete(r, applied, verified) =>
      && r in w.watchers && w.watchers[r].known != None
      && var id := w.watchers[r].known.value;
      && u == w.(subs := u.subs, deletions := w.deletions + [Deletion(Stopper(r), id, verified)])
      && if applied || verified then SwitchedOff(w.subs, u.subs, id) else u.subs == w.subs
    case WatcherDies(r) =>
      && r in w.watchers
      && var x := w.watchers[r];
      u == w.(watchers := w.watchers[r := Watcher(x.m, x.started, Some(w.now), x.known)])
    case InspectAccount =>
      && u == w.(inspected := u.inspected)
      && forall id :: id in u.inspected <==> id in w.inspected || (id in w.subs && w.subs[id].origin != Foreign)
    case Administer(tx) => Commit(w.owners, tx).Some? && u == w.(owners := Commit(w.owners, tx).value)
    case ArmSession(s) =>
      s in w.owners && u == w.(sessions := w.sessions[s := SessionRow(true, None, w.owners[s].frozen.expires)])
    case Tick(ms) => u == w.(now := w.now + ms)
    case Say(bot, body) => u == w.(issue := w.issue + [Comment(bot, w.now, body)])
    case AccountMoves(balance, units) => u == w.(balance := balance, units := units)
    case ForeignOn(id) => u == w.(subs := w.subs[id := Sub(Foreign, true)])
    case TurnsOff(id) => u == w.(subs := u.subs) && SwitchedOff(w.subs, u.subs, id)
    case DatabaseRestart => u == w.(sessions := map[], restartedAt := w.now)
  }

  lemma EventsLeave(w: World, e: Event, u: World)
    requires !e.Act? && Step(w, e) == Some(u)
    ensures Happened(w, e, u)
  {
    hide Commit, ActiveSubs, ExactOwner, Operate;
  }
}
