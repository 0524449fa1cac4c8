/**
 The "one paid CREATE, independent STOP" protocol as a transition system:
 any number of paid operators and STOP watchers, the logged owner table, the
 unlogged callback sessions, the provider account, the private directories
 and the public issue thread, interleaved in any order with crashes, database
 restarts, lost responses and foreign activity.

 An operator step is one write, one account or database read, or one group of
 reads that a single guard judges together: the intent search reads the issue
 thread, the liveness test the STOP run, its jobs and the thread, the file test
 the directory and the clock. A step that is not enabled leaves the world
 unchanged, so every sequence of events is a run.
 */
module PaidProtocol {
  import opened Common
  import opened OwnerLedger

  type OpId = nat
  type RunId = nat
  type Dir = nat

  /** The commission an operator or a watcher is pinned to. */
  datatype Manifest = Manifest(scope: Scope, head: string, owner: Frozen, credits: int)

  /** Structured bodies the scripts look for in the issue thread; everything else is prose. */
  datatype Body =
    | Intent(scope: Scope)
    | Armed(scope: Scope, runner: string, receiver: string, stop: int)
    | Receipt(scope: Scope)
    | Prose

  datatype Comment = Comment(bot: bool, at: int, body: Body)

  /** `last` is false in the early preflight and true after the start boundary. */
  datatype Pc =
    | AtIssue | AtFiles | AtOwner
    | AtSession(last: bool, rearmed: bool)
    | AtRearmLive(last: bool) | AtRearmBalance(last: bool) | AtRearmList(last: bool) | AtRestore(last: bool)
    | AtLive(last: bool) | AtBalance(last: bool) | AtList(last: bool) | AtWait
    | AtClock | AtFileIntent | AtAnnounce | AtLastClock | AtCreate
    | AtRecord | AtFileReceipt | AtBind | AtReadback
    | InCatch | Finished | Exited | Crashed

  /** The observations a successful CREATE rests on, each with the time it was made. */
  datatype Evidence = Evidence(owner: Option<Row>, session: Option<SessionRow>,
                               run: RunId, armed: nat, liveAt: int, sessionAt: int,
                               balanceAt: int, balance: int, listAt: int, active: set<SubId>, clockAt: int)

  datatype Op = Op(m: Manifest, dir: Dir, stopRun: RunId, pc: Pc, seen: nat, announced: Option<nat>,
                   filed: bool, posted: bool, created: Option<SubId>, evidence: Evidence)

  /** A STOP run, from its start to its death if it died, with the id it has read. */
  datatype Watcher = Watcher(m: Manifest, started: int, died: Option<int>, known: Option<SubId>)

  datatype Origin = Foreign | By(op: OpId)
  datatype Sub = Sub(origin: Origin, active: bool)

  datatype Post = Post(op: OpId, scope: Scope, dir: Dir, at: int, evidence: Evidence)
  datatype Deleter = Operator(op: OpId) | Stopper(run: RunId)
  datatype Deletion = Deletion(actor: Deleter, id: SubId, verified: bool)

  datatype World = World(
    now: int,
    owners: Table,
    sessions: map<Scope, SessionRow>,
    intents: map<Dir, OpId>,
    receipts: map<Dir, OpId>,
    issue: seq<Comment>,
    subs: map<SubId, Sub>,
    balance: int,
    units: int,
    ops: map<OpId, Op>,
    watchers: map<RunId, Watcher>,
    posts: seq<Post>,
    deletions: seq<Deletion>,
    inspected: set<SubId>,
    restartedAt: int)

  datatype SessionRow = SessionRow(armed: bool, providerId: Option<SubId>, expires: int)

  // ------------------------------------------------------------------
  // Pure guards of the scripts
  // ------------------------------------------------------------------

  /** gate05MayCreateInTimeV39 */
  predicate MayCreateInTime(now: int, start: int, stop: int) {
    stop - start == HOUR && start - 90000 <= now <= start + 15000
  }

  /** The recent-receipt test of gate05OnePaidLaunchReceiptChecksV39. */
  predicate ReceiptAccepted(c: Comment, m: Manifest, now: int) {
    && c.bot && c.at <= now + 10000 && now - c.at <= 12 * MINUTE
    && c.body == Armed(m.scope, m.head, m.owner.receiver, m.owner.stop)
  }

  /** reviewGate05UnloggedPrecreateRecoveryTimeV39, after its row checks. */
  predicate RestoreWindow(now: int, start: int) {
    start - 10 * MINUTE <= now <= start - 30000
  }

  function ActiveSubs(w: World): set<SubId> { set id | id in w.subs && w.subs[id].active }

  predicate AccountUnchanged(w: World, m: Manifest) { w.balance == m.credits && ActiveSubs(w) == {} }

  /** STOP run `r` belonged to the commission and was alive at time t. */
  predicate RunLiveAt(w: World, r: RunId, m: Manifest, t: int) {
    && r in w.watchers && w.watchers[r].m.scope == m.scope && w.watchers[r].m.head == m.head
    && w.watchers[r].started <= t && (w.watchers[r].died.Some? ==> t <= w.watchers[r].died.value)
  }

  predicate SafetyLive(w: World, op: Op, k: nat) {
    && Watching(w, op.stopRun) && RunLiveAt(w, op.stopRun, op.m, w.now)
    && k < |w.issue| && ReceiptAccepted(w.issue[k], op.m, w.now)
  }

  /** rejectPreviouslySpentGithubIntent: the author is not looked at. */
  predicate IntentAnnounced(issue: seq<Comment>, s: Scope) {
    exists k :: 0 <= k < |issue| && issue[k].body == Intent(s)
  }

  predicate SessionArmed(w: World, m: Manifest) {
    m.scope in w.sessions && w.sessions[m.scope] == SessionRow(true, None, m.owner.expires)
  }

  // ------------------------------------------------------------------
  // Operator steps
  // ------------------------------------------------------------------

  datatype Response = Returned(id: SubId) | ResponseLost(id: SubId) | NothingMade
  datatype CommitAnswer = Acknowledged | AppliedUnseen | NotApplied

  datatype OpStep =
    | CheckIssue | CheckFiles | ReadOwner | ReadSession | CheckLive(k: nat)
    | CheckBalance | CheckList
    | RestoreSession | ReachStart | CheckClock
    | WriteIntent | Announce(answered: bool)
    | PostCreate(response: Response) | Record | WriteReceipt
    | BindTransaction(answer: CommitAnswer) | ReadBack
    | Raise | Cleanup(applied: bool, verified: bool) | Crash

  predicate Live(pc: Pc) { !pc.Finished? && !pc.Exited? && !pc.Crashed? }

  function Deactivate(w: World, id: SubId): map<SubId, Sub> {
    if id in w.subs then w.subs[id := w.subs[id].(active := false)] else w.subs
  }

  // Steps that only read: the operator moves on, or the step is not enabled.

  ghost function CheckedIssue(w: World, op: Op): Option<Op> {
    if op.pc.AtIssue? && !IntentAnnounced(w.issue, op.m.scope)
    then Some(op.(pc := AtFiles, seen := |w.issue|)) else None
  }

  function CheckedFiles(w: World, op: Op): Option<Op> {
    if op.pc.AtFiles? && op.dir !in w.intents && op.dir !in w.receipts &&
       op.m.owner.start - 9 * MINUTE <= w.now <= op.m.owner.start + 15000
    then Some(op.(pc := AtOwner)) else None
  }

  function OwnerReadBack(w: World, op: Op): Option<Op> {
    var s := op.m.scope;
    if op.pc.AtOwner? && op.dir !in w.intents && s in w.owners && ExactOwner(w.owners[s], op.m.owner) &&
       w.owners[s].state.PREPARED? && w.owners[s].providerId.None?
    then Some(op.(pc := AtSession(false, false), evidence := op.evidence.(owner := Some(w.owners[s])))) else None
  }

  function SessionReadBack(w: World, op: Op): Option<Op> {
    if !op.pc.AtSession? || op.dir in w.intents then None
    else if SessionArmed(w, op.m) then
      Some(op.(pc := if op.pc.last then AtBalance(true) else AtLive(false),
               evidence := op.evidence.(sessionAt := w.now, session := Some(w.sessions[op.m.scope]))))
    else if op.m.scope !in w.sessions && !op.pc.rearmed then Some(op.(pc := AtRearmLive(op.pc.last)))
    else None
  }

  function CheckedLive(w: World, op: Op, k: nat): Option<Op> {
    if !SafetyLive(w, op, k) then None
    else match op.pc
      case AtRearmLive(last) => Some(op.(pc := AtRearmBalance(last)))
      case AtLive(last) =>
        Some(op.(pc := if last then AtSession(true, false) else AtBalance(false),
                 evidence := op.evidence.(run := op.stopRun, armed := k, liveAt := w.now)))
      case _ => None
  }

  /** The request units are looked at in the early preflight and before a rearm, not again after the start. */
  function CheckedBalance(w: World, op: Op): Option<Op> {
    if w.balance != op.m.credits || (op.pc != AtBalance(true) && w.units < 12) then None
    else match op.pc
      case AtRearmBalance(last) => Some(op.(pc := AtRearmList(last)))
      case AtBalance(last) =>
        Some(op.(pc := AtList(last), evidence := op.evidence.(balanceAt := w.now, balance := w.balance)))
      case _ => None
  }

  function CheckedList(w: World, op: Op): Option<Op> {
    if ActiveSubs(w) != {} then None
    else match op.pc
      case AtRearmList(last) => Some(op.(pc := AtRestore(last)))
      case AtList(last) =>
        Some(op.(pc := if last then AtClock else AtWait,
                 evidence := op.evidence.(listAt := w.now, active := ActiveSubs(w))))
      case _ => None
  }

  function ReachedStart(w: World, op: Op): Option<Op> {
    if op.pc.AtWait? && op.m.owner.start <= w.now && MayCreateInTime(w.now, op.m.owner.start, op.m.owner.stop)
    then Some(op.(pc := AtLive(true))) else None
  }

  /** The clock is read before the intent file and again just before the POST. */
  function CheckedClock(w: World, op: Op): Option<Op> {
    if !MayCreateInTime(w.now, op.m.owner.start, op.m.owner.stop) then None
    else match op.pc
      case AtClock => Some(op.(pc := AtFileIntent))
      case AtLastClock => Some(op.(pc := AtCreate, evidence := op.evidence.(clockAt := w.now)))
      case _ => None
  }

  function BindReadBack(w: World, op: Op): Option<Op> {
    if op.pc.AtReadback? && op.m.scope in w.owners && w.owners[op.m.scope].state.ACTIVE? &&
       w.owners[op.m.scope].providerId == op.created
    then Some(op.(pc := Finished)) else None
  }

  function Raised(op: Op): Option<Op> {
    if Live(op.pc) && !op.pc.InCatch? then Some(op.(pc := InCatch)) else None
  }

  function Died(op: Op): Option<Op> {
    if Live(op.pc) then Some(op.(pc := Crashed)) else None
  }

  ghost function Observe(w: World, op: Op, a: OpStep): Option<Op> {
    match a
    case CheckIssue => CheckedIssue(w, op)
    case CheckFiles => CheckedFiles(w, op)
    case ReadOwner => OwnerReadBack(w, op)
    case ReadSession => SessionReadBack(w, op)
    case CheckLive(k) => CheckedLive(w, op, k)
    case CheckBalance => CheckedBalance(w, op)
    case CheckList => CheckedList(w, op)
    case ReachStart => ReachedStart(w, op)
    case CheckClock => CheckedClock(w, op)
    case ReadBack => BindReadBack(w, op)
    case Raise => Raised(op)
    case Crash => Died(op)
    case _ => None
  }

  // Steps that write. Each takes the operator's record and returns the whole new world.

  function With(w: World, o: OpId, op: Op): World { w.(ops := w.ops[o := op]) }

  /** restoreExactGate05PreparedCallbackAfterRestartV39 */
  function SessionRestored(w: World, o: OpId, op: Op): Option<World> {
    var s := op.m.scope;
    if op.pc.AtRestore? && s in w.owners && ExactOwner(w.owners[s], op.m.owner) && w.owners[s].state.PREPARED? &&
       w.owners[s].providerId.None? && w.owners[s].frozen.expires == op.m.owner.expires &&
       w.owners[s].frozen.created < w.restartedAt <= w.now &&
       RestoreWindow(w.now, op.m.owner.start) && s !in w.sessions
    then Some(With(w, o, op.(pc := AtSession(op.pc.last, true))).(
      sessions := w.sessions[s := SessionRow(true, None, op.m.owner.expires)]))
    else None
  }

  /** privateOnce(INTENT): an exclusive create. */
  function IntentWritten(w: World, o: OpId, op: Op): Option<World> {
    if op.pc.AtFileIntent? && op.dir !in w.intents
    then Some(With(w, o, op.(pc := AtAnnounce, filed := true)).(intents := w.intents[op.dir := o])) else None
  }

  /** The comment is posted; the answer may be lost. */
  function IntentAnnouncedBy(w: World, o: OpId, op: Op, answered: bool): Option<World> {
    if op.pc.AtAnnounce?
    then Some(With(w, o, op.(pc := if answered then AtLastClock else InCatch, announced := Some(|w.issue|)))
                .(issue := w.issue + [Comment(false, w.now, Intent(op.m.scope))])) else None
  }

  /** The one non-idempotent POST. The provider hands out ids nobody has used. */
  function Created(w: World, o: OpId, op: Op, response: Response): Option<World> {
    if !op.pc.AtCreate? || (!response.NothingMade? && (response.id in w.subs || |response.id| == 0)) then None
    else
      var after := op.(posted := true, pc := if response.Returned? then AtRecord else InCatch,
                       created := if response.Returned? then Some(response.id) else None);
      Some(With(w, o, after).(
        posts := w.posts + [Post(o, op.m.scope, op.dir, w.now, op.evidence)],
        subs := if response.NothingMade? then w.subs else w.subs[response.id := Sub(By(o), true)]))
  }

  /** The shape an id must have before it is kept for recovery. */
  predicate Recoverable(id: SubId) { 6 <= |id| <= 256 && '\r' !in id && '\n' !in id }

  function Recorded(w: World, o: OpId, op: Op): Option<World> {
    if op.pc.AtRecord? && op.created.Some? && Recoverable(op.created.value)
    then Some(With(w, o, op.(pc := AtFileReceipt)).(issue := w.issue + [Comment(false, w.now, Receipt(op.m.scope))]))
    else None
  }

  function ReceiptWritten(w: World, o: OpId, op: Op): Option<World> {
    if op.pc.AtFileReceipt? && op.dir !in w.receipts
    then Some(With(w, o, op.(pc := AtBind)).(receipts := w.receipts[op.dir := o])) else None
  }

  /** BEGIN ... COMMIT: both rows or neither; the operator may not learn which. */
  ghost function Bound(w: World, o: OpId, op: Op, answer: CommitAnswer): Option<World> {
    if !op.pc.AtBind? || op.created.None? then None
    else
      var s := op.m.scope;
      var t := Commit(w.owners, BindOwner(s, op.m.owner, op.created.value));
      if t.None? || s !in w.sessions || !w.sessions[s].armed || w.sessions[s].providerId.Some? then None
      else
        var after := With(w, o, op.(pc := if answer.Acknowledged? then AtReadback else InCatch));
        Some(if answer.NotApplied? then after
             else after.(owners := t.value,
                         sessions := w.sessions[s := w.sessions[s].(armed := false, providerId := op.created)]))
  }

  /** The catch block: roll back, delete the id this operator created and no other, rethrow. */
  function CleanedUp(w: World, o: OpId, op: Op, applied: bool, verified: bool): Option<World> {
    if !op.pc.InCatch? then None
    else if op.created.None? then Some(With(w, o, op.(pc := Exited)))
    else Some(With(w, o, op.(pc := Exited)).(
      deletions := w.deletions + [Deletion(Operator(o), op.created.value, verified)],
      subs := if applied || verified then Deactivate(w, op.created.value) else w.subs))
  }

  ghost function Operate(w: World, o: OpId, a: OpStep): Option<World> {
    if o !in w.ops then None
    else
      var op := w.ops[o];
      match a
      case RestoreSession => SessionRestored(w, o, op)
      case WriteIntent => IntentWritten(w, o, op)
      case Announce(answered) => IntentAnnouncedBy(w, o, op, answered)
      case PostCreate(response) => Created(w, o, op, response)
      case Record => Recorded(w, o, op)
      case WriteReceipt => ReceiptWritten(w, o, op)
      case BindTransaction(answer) => Bound(w, o, op, answer)
      case Cleanup(applied, verified) => CleanedUp(w, o, op, applied, verified)
      case _ => var r := Observe(w, op, a); if r.Some? then Some(With(w, o, r.value)) else None
  }

  // ------------------------------------------------------------------
  // Watchers, administration and the outside world
  // ------------------------------------------------------------------

  datatype Event =
    | Act(o: OpId, a: OpStep)
    | StartOperator(o: OpId, m: Manifest, dir: Dir, stopRun: RunId)
    | StartWatcher(r: RunId, m: Manifest)
    | ArmWatcher(r: RunId)
    | PollOwner(r: RunId)
    | WatcherDelete(r: RunId, applied: bool, verified: bool)
    | WatcherDies(r: RunId)
    | InspectAccount
    | Administer(tx: Tx)
    | ArmSession(scope: Scope)
    | Tick(ms: nat)
    | Say(bot: bool, body: Body)
    | AccountMoves(balance: int, units: int)
    | ForeignOn(id: SubId)
    | TurnsOff(id: SubId)
    | DatabaseRestart

  predicate ManifestOk(m: Manifest) {
    m.owner.stop - m.owner.start == HOUR && m.owner.expires == m.owner.stop + 20 * MINUTE && m.credits >= 500
  }

  const FRESH := Evidence(None, None, 0, 0, 0, 0, 0, 0, 0, {}, 0)

  function OperatorStarted(w: World, o: OpId, m: Manifest, dir: Dir, stopRun: RunId): Option<World> {
    if o in w.ops || !ManifestOk(m) then None
    else Some(With(w, o, Op(m, dir, stopRun, AtIssue, 0, None, false, false, None, FRESH)))
  }

  /** The BAD_WINDOW rule of validateGate05ScienceStopPinsV39. */
  function WatcherStarted(w: World, r: RunId, m: Manifest): Option<World> {
    if r in w.watchers || !ManifestOk(m) || m.owner.start - w.now > 10 * MINUTE || w.now - m.owner.start > MINUTE ||
       m.owner.stop - w.now < 30000 then None
    else Some(w.(watchers := w.watchers[r := Watcher(m, w.now, None, None)]))
  }

  predicate Watching(w: World, r: RunId) { r in w.watchers && w.watchers[r].died.None? }

  /** The receipt of a watch that armed; `Say` can put any bot comment there too, so none is taken at its word. */
  function WatcherArmed(w: World, r: RunId): Option<World> {
    if !Watching(w, r) then None
    else
      var m := w.watchers[r].m;
      if m.scope in w.owners && ExactOwner(w.owners[m.scope], m.owner) && w.owners[m.scope].state.PREPARED? &&
        w.owners[m.scope].providerId.None? && AccountUnchanged(w, m) && w.units >= 12
      then Some(w.(issue := w.issue + [Comment(true, w.now, Armed(m.scope, m.head, m.owner.receiver, m.owner.stop))]))
      else None
  }

  /** owner(): the id is taken from a row matching every pin, and only while it does not change. */
  function OwnerPolled(w: World, r: RunId): Option<World> {
    if !Watching(w, r) then None
    else
      var x := w.watchers[r];
      if x.m.scope in w.owners && ExactOwner(w.owners[x.m.scope], x.m.owner) && w.owners[x.m.scope].providerId.Some? &&
         (x.known.None? || x.known == w.owners[x.m.scope].providerId)
      then Some(w.(watchers := w.watchers[r := x.(known := w.owners[x.m.scope].providerId)])) else None
  }

  function WatcherDeleted(w: World, r: RunId, applied: bool, verified: bool): Option<World> {
    if !Watching(w, r) || w.watchers[r].known.None? then None
    else
      var id := w.watchers[r].known.value;
      Some(w.(deletions := w.deletions + [Deletion(Stopper(r), id, verified)],
              subs := if applied || verified then Deactivate(w, id) else w.subs))
  }

  function WatcherDied(w: World, r: RunId): Option<World> {
    if !Watching(w, r) then None else Some(w.(watchers := w.watchers[r := w.watchers[r].(died := Some(w.now))]))
  }

  /**
   A closeout's free account reads: nothing is active. The purchases made so
   far, among them the one whose paid run it is about to close, are inactive.
   */
  function Inspected(w: World): Option<World> {
    if ActiveSubs(w) != {} then None
    else Some(w.(inspected := w.inspected + set id | id in w.subs && w.subs[id].origin.By?))
  }

  ghost function Administered(w: World, tx: Tx): Option<World> {
    if tx.BindOwner? || (tx.Closeout? && tx.id !in w.inspected) then None
    else
      var t := Commit(w.owners, tx);
      if t.None? then None else Some(w.(owners := t.value))
  }

  /** Part of a commission's transaction; the session trigger demands a PREPARED owner. */
  function SessionArmedFor(w: World, s: Scope): Option<World> {
    if s in w.owners && w.owners[s].state.PREPARED? && s !in w.sessions
    then Some(w.(sessions := w.sessions[s := SessionRow(true, None, w.owners[s].frozen.expires)])) else None
  }

  function ForeignAppears(w: World, id: SubId): Option<World> {
    if id in w.subs && w.subs[id].origin.By? then None else Some(w.(subs := w.subs[id := Sub(Foreign, true)]))
  }

  ghost function Step(w: World, e: Event): Option<World> {
    match e
    case Act(o, a) => Operate(w, o, a)
    case StartOperator(o, m, dir, run) => OperatorStarted(w, o, m, dir, run)
    case StartWatcher(r, m) => WatcherStarted(w, r, m)
    case ArmWatcher(r) => WatcherArmed(w, r)
    case PollOwner(r) => OwnerPolled(w, r)
    case WatcherDelete(r, applied, verified) => WatcherDeleted(w, r, applied, verified)
    case WatcherDies(r) => WatcherDied(w, r)
    case InspectAccount => Inspected(w)
    case Administer(tx) => Administered(w, tx)
    case ArmSession(s) => SessionArmedFor(w, s)
    case Tick(ms) => Some(w.(now := w.now + ms))
    case Say(bot, body) => Some(w.(issue := w.issue + [Comment(bot, w.now, body)]))
    case AccountMoves(b, units) => Some(w.(balance := b, units := units))
    case ForeignOn(id) => ForeignAppears(w, id)
    case TurnsOff(id) => Some(w.(subs := Deactivate(w, id)))
    case DatabaseRestart => Some(w.(sessions := map[], restartedAt := w.now))
  }

  ghost function Next(w: World, e: Event): World {
    var r := Step(w, e);
    if r.Some? then r.value else w
  }

  ghost function Run(w: World, es: seq<Event>): World
    decreases |es|
  {
    if es == [] then w else Run(Next(w, es[0]), es[1..])
  }

  /** Before anything was bought: rows as the commissions left them, no operator or watcher yet. */
  ghost predicate Initial(w: World) {
    && TableInv(w.owners) && PaidNeverFailed(w.owners)
    && (forall s :: s in w.owners ==> w.owners[s].providerId.None?)
    && w.sessions == map[] && w.intents == map[] && w.receipts == map[]
    && (forall id :: id in w.subs ==> w.subs[id].origin.Foreign?)
    && w.ops == map[] && w.watchers == map[] && w.posts == [] && w.deletions == [] && w.inspected == {}
  }
}
