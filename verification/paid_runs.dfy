/** Runs that do happen: the theorems are not vacuous, and the race they describe is real. */
module PaidRuns {
  import opened Common
  import opened OwnerLedger
  import opened PaidProtocol
  import opened PaidTheorems

  ghost predicate Reaches(w: World, u: World) { exists es :: Run(w, es) == u }

  lemma {:induction false} RunAppend(w: World, xs: seq<Event>, ys: seq<Event>)
    ensures Run(w, xs + ys) == Run(Run(w, xs), ys)
    decreases |xs|
  {
    if xs == [] {
      assert xs + ys == ys;
    } else {
      assert (xs + ys)[0] == xs[0] && (xs + ys)[1..] == xs[1..] + ys;
      RunAppend(Next(w, xs[0]), xs[1..], ys);
    }
  }

  lemma Then(w: World, u: World, e: Event, v: World)
    requires Reaches(w, u) && Step(u, e) == Some(v)
    ensures Reaches(w, v)
  {
    var es :| Run(w, es) == u;
    RunAppend(w, es, [e]);
    assert Run(u, [e]) == Run(Next(u, e), []);
    assert Run(w, es + [e]) == v;
  }

  lemma Afterwards(w: World, u: World, v: World)
    requires Reaches(w, u) && Reaches(u, v)
    ensures Reaches(w, v)
  {
    var es :| Run(w, es) == u;
    var fs :| Run(u, fs) == v;
    RunAppend(w, es, fs);
  }

  lemma ReachesSelf(w: World)
    ensures Reaches(w, w)
  {
    assert Run(w, []) == w;
  }

  /** A reading step only replaces the operator's own record. */
  lemma ThenRead(w: World, b: World, o: OpId, op: Op, a: OpStep, after: Op)
    requires o in b.ops && Reaches(w, With(b, o, op)) && Observe(With(b, o, op), op, a) == Some(after)
    ensures Reaches(w, With(b, o, after))
  {
    assert b.ops[o := op][o := after] == b.ops[o := after];
    Then(w, With(b, o, op), Act(o, a), With(b, o, after));
  }

  /** At the start instant, everything the preflight asks for is in place. */
  ghost predicate Ready(w: World, op: Op) {
    var m := op.m;
    && ManifestOk(m) && w.now == m.owner.start
    && m.scope in w.owners && w.owners[m.scope] == Prepared(m.owner)
    && SessionArmed(w, m) && AccountUnchanged(w, m) && w.units >= 12 && SafetyLive(w, op, 0)
    && !IntentAnnounced(w.issue, m.scope)
    && op.dir !in w.intents && op.dir !in w.receipts
  }

  function LiveSeen(w: World, op: Op): Evidence { op.evidence.(run := op.stopRun, armed := 0, liveAt := w.now) }

  function AccountSeen(w: World, e: Evidence): Evidence {
    e.(balanceAt := w.now, balance := w.balance, listAt := w.now, active := {})
  }

  function SessionSeen(w: World, m: Manifest, e: Evidence): Evidence {
    e.(sessionAt := w.now, session := Some(SessionRow(true, None, m.owner.expires)))
  }

  /** What the operator's record becomes when nothing goes wrong. */
  function Cleared(w: World, op: Op): Op {
    var e := LiveSeen(w, op).(owner := Some(Prepared(op.m.owner)));
    op.(pc := AtFileIntent, seen := |w.issue|, evidence := AccountSeen(w, SessionSeen(w, op.m, e)))
  }

  /** Past the session check, before the first liveness check. */
  function EarlyDone(w: World, op: Op): Op {
    var e := op.evidence.(owner := Some(Prepared(op.m.owner)));
    op.(pc := AtLive(false), seen := |w.issue|, evidence := SessionSeen(w, op.m, e))
  }

  lemma EarlyPreflight(w: World, b: World, o: OpId, op: Op)
    requires Ready(b, op) && op.pc.AtIssue? && o in b.ops && Reaches(w, With(b, o, op))
    ensures Reaches(w, With(b, o, EarlyDone(b, op)))
  {
    hide Reaches, SafetyLive;
    var a := op.(pc := AtFiles, seen := |b.issue|);
    var c := a.(pc := AtOwner);
    var d := a.(pc := AtSession(false, false), evidence := op.evidence.(owner := Some(Prepared(op.m.owner))));
    ThenRead(w, b, o, op, CheckIssue, a);
    ThenRead(w, b, o, a, CheckFiles, c);
    ThenRead(w, b, o, c, ReadOwner, d);
    ThenRead(w, b, o, d, ReadSession, EarlyDone(b, op));
  }

  lemma ListRead(w: World, b: World, o: OpId, op: Op, last: bool)
    requires ActiveSubs(b) == {} && op.pc == AtList(last) && o in b.ops && Reaches(w, With(b, o, op))
    ensures var e := op.evidence.(listAt := b.now, active := {});
            Reaches(w, With(b, o, op.(pc := if last then AtClock else AtWait, evidence := e)))
  {
    hide Reaches;
    assert ActiveSubs(With(b, o, op)) == ActiveSubs(b);
    var e := op.evidence.(listAt := b.now, active := {});
    ThenRead(w, b, o, op, CheckList, op.(pc := if last then AtClock else AtWait, evidence := e));
  }

  lemma AccountPreflight(w: World, b: World, o: OpId, op: Op, last: bool)
    requires Ready(b, op) && op.pc == AtBalance(last) && o in b.ops && Reaches(w, With(b, o, op))
    ensures Reaches(w, With(b, o, op.(pc := if last then AtClock else AtWait, evidence := AccountSeen(b, op.evidence))))
  {
    hide Reaches, SafetyLive;
    var a := op.(pc := AtList(last), evidence := op.evidence.(balanceAt := b.now, balance := b.balance));
    ThenRead(w, b, o, op, CheckBalance, a);
    ListRead(w, b, o, a, last);
  }

  /** Past the start boundary. */
  function MiddleDone(w: World, op: Op): Op { op.(pc := AtLive(true), evidence := AccountSeen(w, LiveSeen(w, op))) }

  lemma MiddlePreflight(w: World, b: World, o: OpId, op: Op)
    requires Ready(b, op) && op.pc == AtLive(false) && o in b.ops && Reaches(w, With(b, o, op))
    ensures Reaches(w, With(b, o, MiddleDone(b, op)))
  {
    hide Reaches;
    var a := op.(pc := AtBalance(false), evidence := LiveSeen(b, op));
    ThenRead(w, b, o, op, CheckLive(0), a);
    AccountPreflight(w, b, o, a, false);
    StartReached(w, b, o, op);
  }

  lemma StartReached(w: World, b: World, o: OpId, op: Op)
    requires Ready(b, op) && o in b.ops && Reaches(w, With(b, o, MiddleDone(b, op).(pc := AtWait)))
    ensures Reaches(w, With(b, o, MiddleDone(b, op)))
  {
    hide Reaches, SafetyLive;
    ThenRead(w, b, o, MiddleDone(b, op).(pc := AtWait), ReachStart, MiddleDone(b, op));
  }

  lemma LatePreflight(w: World, b: World, o: OpId, op: Op)
    requires Ready(b, op) && op.pc == AtLive(true) && o in b.ops && Reaches(w, With(b, o, op))
    ensures Reaches(w, With(b, o, op.(pc := AtBalance(true), evidence := SessionSeen(b, op.m, LiveSeen(b, op)))))
  {
    var a := op.(pc := AtSession(true, false), evidence := LiveSeen(b, op));
    ThenRead(w, b, o, op, CheckLive(0), a);
    ThenRead(w, b, o, a, ReadSession, op.(pc := AtBalance(true), evidence := SessionSeen(b, op.m, LiveSeen(b, op))));
  }

  lemma LastPreflight(w: World, b: World, o: OpId, op: Op)
    requires Ready(b, op) && op.pc == AtBalance(true) && o in b.ops && Reaches(w, With(b, o, op))
    ensures Reaches(w, With(b, o, op.(pc := AtFileIntent, evidence := AccountSeen(b, op.evidence))))
  {
    AccountPreflight(w, b, o, op, true);
    var d := op.(pc := AtClock, evidence := AccountSeen(b, op.evidence));
    ThenRead(w, b, o, d, CheckClock, d.(pc := AtFileIntent));
  }

  /** An operator that finds everything in place walks up to its intent file. */
  lemma Preflight(b: World, o: OpId)
    requires o in b.ops && Ready(b, b.ops[o]) && b.ops[o].pc.AtIssue?
    ensures Reaches(b, With(b, o, Cleared(b, b.ops[o])))
  {
    hide Reaches;
    var op := b.ops[o];
    ReachesSelf(b);
    assert With(b, o, op) == b;
    EarlyPreflight(b, b, o, op);
    var x := EarlyDone(b, op);
    MiddlePreflight(b, b, o, x);
    var y := MiddleDone(b, x);
    LatePreflight(b, b, o, y);
    LastPreflight(b, b, o, y.(pc := AtBalance(true), evidence := SessionSeen(b, y.m, LiveSeen(b, y))));
  }

  // ------------------------------------------------------------------
  // The start of both runs
  // ------------------------------------------------------------------

  /** Just commissioned, at the start instant. */
  function Commissioned(m: Manifest): World {
    World(m.owner.start, map[m.scope := Prepared(m.owner)], map[], map[], map[], [], map[], m.credits, 12,
          map[], map[], [], [], {}, m.owner.created)
  }

  function WithArmedWatcher(m: Manifest): World {
    Commissioned(m).(sessions := map[m.scope := SessionRow(true, None, m.owner.expires)],
                     issue := [Comment(true, m.owner.start, Armed(m.scope, m.head, m.owner.receiver, m.owner.stop))],
                     watchers := map[7 := Watcher(m, m.owner.start, None, None)])
  }

  function NewOp(m: Manifest, dir: Dir): Op { Op(m, dir, 7, AtIssue, 0, None, false, false, None, FRESH) }

  lemma WatcherArms(m: Manifest)
    requires ManifestOk(m)
    ensures Reaches(Commissioned(m), WithArmedWatcher(m))
  {
    hide Reaches;
    var w, x := Commissioned(m), Watcher(m, m.owner.start, None, None);
    ReachesSelf(w);
    var a := w.(watchers := map[7 := x]);
    assert w.watchers[7 := x] == a.watchers;
    Then(w, w, StartWatcher(7, m), a);
    assert ActiveSubs(a) == {};
    var receipt := Comment(true, m.owner.start, Armed(m.scope, m.head, m.owner.receiver, m.owner.stop));
    var b := a.(issue := [receipt]);
    assert a.issue + [receipt] == b.issue;
    Then(w, a, ArmWatcher(7), b);
    assert b.sessions[m.scope := SessionRow(true, None, m.owner.expires)] == WithArmedWatcher(m).sessions;
    Then(w, b, ArmSession(m.scope), WithArmedWatcher(m));
  }

  /** From the intent file to the POST. */
  function Posted(c: World, o: OpId, id: SubId): World
    requires o in c.ops
  {
    var op := c.ops[o].(filed := true, announced := Some(|c.issue|), evidence := c.ops[o].evidence.(clockAt := c.now));
    With(c, o, op.(pc := AtRecord, posted := true, created := Some(id))).(
      intents := c.intents[op.dir := o], issue := c.issue + [Comment(false, c.now, Intent(op.m.scope))],
      posts := c.posts + [Post(o, op.m.scope, op.dir, c.now, op.evidence)],
      subs := c.subs[id := Sub(By(o), true)])
  }

  function Purchased(c: World, o: OpId, id: SubId): World
    requires o in c.ops && c.ops[o].m.scope in c.owners && c.ops[o].m.scope in c.sessions
  {
    var p, s := Posted(c, o, id), c.ops[o].m.scope;
    With(p, o, p.ops[o].(pc := Finished)).(
      issue := p.issue + [Comment(false, c.now, Receipt(s))], receipts := p.receipts[p.ops[o].dir := o],
      owners := p.owners[s := p.owners[s].(state := ACTIVE, providerId := Some(id))],
      sessions := p.sessions[s := p.sessions[s].(armed := false, providerId := Some(id))])
  }

  /** The intent is on disk. */
  function Filed(c: World, o: OpId): World
    requires o in c.ops
  {
    With(c, o, c.ops[o].(pc := AtAnnounce, filed := true)).(intents := c.intents[c.ops[o].dir := o])
  }

  /** The intent is in the thread too, and the clock was read once more. */
  function Declared(c: World, o: OpId): World
    requires o in c.ops
  {
    var op := c.ops[o];
    var e := op.evidence.(clockAt := c.now);
    With(c, o, op.(pc := AtCreate, filed := true, announced := Some(|c.issue|), evidence := e)).(
      intents := c.intents[op.dir := o], issue := c.issue + [Comment(false, c.now, Intent(op.m.scope))])
  }

  lemma FilingRuns(c: World, o: OpId)
    requires o in c.ops && c.ops[o].pc.AtFileIntent? && c.ops[o].dir !in c.intents
    ensures Reaches(c, Filed(c, o))
  {
    hide Reaches;
    ReachesSelf(c);
    Then(c, c, Act(o, WriteIntent), Filed(c, o));
  }

  lemma AnnouncingRuns(c: World, o: OpId, op: Op, d: World)
    requires o in c.ops && op == c.ops[o].(pc := AtLastClock, filed := true, announced := Some(|c.issue|))
    requires d == With(Filed(c, o), o, op).(issue := c.issue + [Comment(false, c.now, Intent(op.m.scope))])
    requires Reaches(c, Filed(c, o))
    ensures Reaches(c, d)
  {
    hide Reaches;
    Then(c, Filed(c, o), Act(o, Announce(true)), d);
  }

  lemma DeclaringRuns(c: World, o: OpId)
    requires o in c.ops && ManifestOk(c.ops[o].m) && c.now == c.ops[o].m.owner.start && Reaches(c, Filed(c, o))
    ensures Reaches(c, Declared(c, o))
  {
    hide Reaches, Step;
    var op := c.ops[o].(pc := AtLastClock, filed := true, announced := Some(|c.issue|));
    var d := With(Filed(c, o), o, op).(issue := c.issue + [Comment(false, c.now, Intent(op.m.scope))]);
    AnnouncingRuns(c, o, op, d);
    assert With(d, o, op) == d;
    ThenRead(c, d, o, op, CheckClock, Declared(c, o).ops[o]);
    assert With(d, o, Declared(c, o).ops[o]).ops == Declared(c, o).ops;
  }

  lemma PostRuns(c: World, o: OpId, id: SubId)
    requires o in c.ops && c.ops[o].pc.AtFileIntent? && c.ops[o].dir !in c.intents && id !in c.subs && |id| > 0
    requires ManifestOk(c.ops[o].m) && c.now == c.ops[o].m.owner.start
    ensures Reaches(c, Posted(c, o, id))
  {
    hide Reaches;
    FilingRuns(c, o);
    DeclaringRuns(c, o);
    var d, u := Declared(c, o), Posted(c, o, id);
    assert d.ops[o := u.ops[o]] == u.ops;
    Then(c, d, Act(o, PostCreate(Returned(id))), u);
  }

  /** Ready to bind: the receipt is in the thread and on disk. */
  function Receipted(c: World, o: OpId, id: SubId): World
    requires o in c.ops
  {
    var p := Posted(c, o, id);
    With(p, o, p.ops[o].(pc := AtBind)).(
      issue := p.issue + [Comment(false, c.now, Receipt(p.ops[o].m.scope))], receipts := p.receipts[p.ops[o].dir := o])
  }

  lemma ReceiptRuns(c: World, o: OpId, id: SubId)
    requires o in c.ops && c.ops[o].dir !in c.receipts && Reaches(c, Posted(c, o, id)) && Recoverable(id)
    ensures Reaches(c, Receipted(c, o, id))
  {
    hide Reaches;
    var p := Posted(c, o, id);
    var op := p.ops[o];
    var a := With(p, o, op.(pc := AtFileReceipt)).(issue := p.issue + [Comment(false, c.now, Receipt(op.m.scope))]);
    Then(c, p, Act(o, Record), a);
    assert With(a, o, op.(pc := AtBind)).ops == Receipted(c, o, id).ops;
    Then(c, a, Act(o, WriteReceipt), Receipted(c, o, id));
  }

  lemma PurchaseRuns(c: World, o: OpId, id: SubId)
    requires o in c.ops && c.ops[o].pc.AtFileIntent? && c.ops[o].dir !in c.intents && c.ops[o].dir !in c.receipts
    requires id !in c.subs && Recoverable(id)
    requires var m := c.ops[o].m;
             && ManifestOk(m) && WindowCheck(m.owner) && c.now == m.owner.start
             && c.owners == map[m.scope := Prepared(m.owner)] && SessionArmed(c, m)
    ensures Reaches(c, Purchased(c, o, id))
  {
    hide Reaches, ManifestOk, WindowCheck;
    PostRuns(c, o, id);
    ReceiptRuns(c, o, id);
    var b := Receipted(c, o, id);
    BindRuns(c, b, o, c.ops[o].m, id);
    var d := BoundBy(b, o, id);
    ReadBackRuns(c, d, o);
    assert With(d, o, d.ops[o].(pc := Finished)).ops == Purchased(c, o, id).ops;
  }

  lemma ReadBackRuns(c: World, d: World, o: OpId)
    requires Reaches(c, d) && o in d.ops && d.ops[o].pc.AtReadback? && d.ops[o].created.Some?
    requires var s := d.ops[o].m.scope;
        s in d.owners && d.owners[s].state.ACTIVE? && d.owners[s].providerId == d.ops[o].created
    ensures Reaches(c, With(d, o, d.ops[o].(pc := Finished)))
  {
    Then(c, d, Act(o, ReadBack), With(d, o, d.ops[o].(pc := Finished)));
  }

  /** The transaction committed and the operator knows it. */
  function BoundBy(b: World, o: OpId, id: SubId): World
    requires o in b.ops && b.ops[o].m.scope in b.owners && b.ops[o].m.scope in b.sessions
  {
    var s := b.ops[o].m.scope;
    With(b, o, b.ops[o].(pc := AtReadback)).(
      owners := b.owners[s := b.owners[s].(state := ACTIVE, providerId := Some(id))],
      sessions := b.sessions[s := b.sessions[s].(armed := false, providerId := Some(id))])
  }

  lemma BindCommits(s: Scope, f: Frozen, id: SubId)
    requires WindowCheck(f) && |id| > 0
    ensures Commit(map[s := Prepared(f)], BindOwner(s, f, id)) ==
            Some(map[s := Prepared(f)][s := Prepared(f).(state := ACTIVE, providerId := Some(id))])
  {
    var t: Table, row := map[s := Prepared(f)], Prepared(f).(state := ACTIVE, providerId := Some(id));
    assert t[s := row] == map[s := row];
    assert Write(t, s, row) == Some(t[s := row]);
  }

  lemma BindRuns(c: World, b: World, o: OpId, m: Manifest, id: SubId)
    requires Reaches(c, b) && o in b.ops && b.ops[o].pc.AtBind? && b.ops[o].created == Some(id) && |id| > 0
    requires b.ops[o].m == m
    requires WindowCheck(m.owner) && b.owners == map[m.scope := Prepared(m.owner)] && SessionArmed(b, m)
    ensures Reaches(c, BoundBy(b, o, id))
  {
    hide Reaches, Commit;
    BindCommits(m.scope, m.owner, id);
    Then(c, b, Act(o, BindTransaction(Acknowledged)), BoundBy(b, o, id));
  }

  /** A live STOP run of the commission with its ARMED receipt in the thread. */
  ghost predicate Guarded(w: World, m: Manifest, r: RunId) {
    && Watching(w, r) && w.watchers[r].m == m
    && exists k :: 0 <= k < |w.issue| && w.issue[k].bot &&
         w.issue[k].body == Armed(m.scope, m.head, m.owner.receiver, m.owner.stop)
  }

  /** One operator, ready to start, beside an armed watcher. */
  function OneOperator(m: Manifest, dir: Dir): World { With(WithArmedWatcher(m), 1, NewOp(m, dir)) }

  lemma OneOperatorStarts(m: Manifest, dir: Dir)
    requires ManifestOk(m)
    ensures Initial(Commissioned(m)) <== WindowCheck(m.owner)
    ensures Reaches(Commissioned(m), OneOperator(m, dir)) && Ready(OneOperator(m, dir), NewOp(m, dir))
  {
    hide Reaches;
    WatcherArms(m);
    Then(Commissioned(m), WithArmedWatcher(m), StartOperator(1, m, dir, 7), OneOperator(m, dir));
    assert ActiveSubs(OneOperator(m, dir)) == {};
  }

  /** The start instant with the operator cleared, and what a purchase from there leaves. */
  function OneCleared(m: Manifest): World {
    With(OneOperator(m, 1), 1, Cleared(OneOperator(m, 1), NewOp(m, 1)))
  }

  lemma OnePurchaseEnds(m: Manifest)
    ensures var u := Purchased(OneCleared(m), 1, "first-id");
      && Guarded(u, m, 7) && |u.posts| == 1 && 1 in u.ops && u.ops[1].pc.Finished?
      && u.ops[1].created == Some("first-id")
      && m.scope in u.owners && u.owners[m.scope] == Row(m.owner, ACTIVE, Some("first-id"), None, None, None)
  {
    assert Purchased(OneCleared(m), 1, "first-id").issue[0] == OneOperator(m, 1).issue[0];
  }

  /** The protocol can run to its end beside an armed watcher: one POST, one bound ACTIVE row, the operator finished. */
  lemma OnePurchaseCompletes(m: Manifest) returns (w: World, u: World)
    requires ManifestOk(m) && WindowCheck(m.owner)
    ensures Initial(w) && Reaches(w, u) && Guarded(u, m, 7)
    ensures |u.posts| == 1 && 1 in u.ops && u.ops[1].pc.Finished? && u.ops[1].created == Some("first-id")
    ensures m.scope in u.owners
    ensures u.owners[m.scope] == Row(m.owner, ACTIVE, Some("first-id"), None, None, None)
  {
    hide Reaches, Initial, Purchased, Guarded;
    w := Commissioned(m);
    OneOperatorStarts(m, 1);
    var b, c := OneOperator(m, 1), OneCleared(m);
    Preflight(b, 1);
    Afterwards(w, b, c);
    u := Purchased(c, 1, "first-id");
    PurchaseRuns(c, 1, "first-id");
    Afterwards(w, c, u);
    OnePurchaseEnds(m);
  }

  // ------------------------------------------------------------------
  // The rearm after the start boundary
  // ------------------------------------------------------------------

  /** The operator at the rearm that a restart just before its last session check leads to. */
  function AtLastRestore(b: World, op: Op): Op { op.(pc := AtRestore(true), evidence := LiveSeen(b, op)) }

  function Restarted(w: World): World { w.(sessions := map[], restartedAt := w.now) }

  /** The session row is gone when the operator comes back to it. */
  lemma SessionLost(w: World, b: World, o: OpId, op: Op)
    requires Ready(b, op) && op.pc == AtLive(true) && o in b.ops && Reaches(w, With(b, o, op))
    ensures Reaches(w, With(Restarted(b), o, AtLastRestore(b, op).(pc := AtRearmLive(true))))
  {
    hide Reaches;
    var a, c := op.(pc := AtSession(true, false), evidence := LiveSeen(b, op)), Restarted(b);
    ThenRead(w, b, o, op, CheckLive(0), a);
    Then(w, With(b, o, a), DatabaseRestart, With(c, o, a));
    ThenRead(w, c, o, a, ReadSession, a.(pc := AtRearmLive(true)));
  }

  /** Liveness, balance and list are checked again before the row is restored. */
  lemma RearmChecks(w: World, c: World, o: OpId, a: Op)
    requires SafetyLive(c, a, 0) && AccountUnchanged(c, a.m) && c.units >= 12 && a.pc == AtRearmLive(true)
    requires o in c.ops && Reaches(w, With(c, o, a))
    ensures Reaches(w, With(c, o, a.(pc := AtRestore(true))))
  {
    hide Reaches;
    var d, e := a.(pc := AtRearmBalance(true)), a.(pc := AtRearmList(true));
    ThenRead(w, c, o, a, CheckLive(0), d);
    ThenRead(w, c, o, d, CheckBalance, e);
    assert ActiveSubs(With(c, o, e)) == ActiveSubs(c);
    ThenRead(w, c, o, e, CheckList, a.(pc := AtRestore(true)));
  }

  /** From the start boundary, a restart after the liveness check leads to the rearm. */
  lemma RearmRuns(w: World, b: World, o: OpId, op: Op)
    requires Ready(b, op) && op.pc == AtLive(true) && o in b.ops && Reaches(w, With(b, o, op))
    ensures Reaches(w, With(Restarted(b), o, AtLastRestore(b, op)))
  {
    hide Reaches;
    var c := Restarted(b);
    SessionLost(w, b, o, op);
    assert ActiveSubs(c) == ActiveSubs(b);
    RearmChecks(w, c, o, AtLastRestore(b, op).(pc := AtRearmLive(true)));
  }

  /** The doomed rearm is really reached, for every commission. */
  lemma LastRearmIsReached(m: Manifest) returns (w: World, u: World)
    requires ManifestOk(m) && WindowCheck(m.owner)
    ensures Initial(w) && Reaches(w, u) && 1 in u.ops && u.ops[1].pc == AtRestore(true)
  {
    hide Reaches, Initial;
    w := Commissioned(m);
    OneOperatorStarts(m, 1);
    var b, op := OneOperator(m, 1), NewOp(m, 1);
    assert With(b, 1, op) == b;
    EarlyPreflight(w, b, 1, op);
    var x := EarlyDone(b, op);
    MiddlePreflight(w, b, 1, x);
    RearmRuns(w, b, 1, MiddleDone(b, x));
    u := With(Restarted(b), 1, AtLastRestore(b, MiddleDone(b, x)));
  }

  // ------------------------------------------------------------------
  // Two directories
  // ------------------------------------------------------------------

  /** Two operators of one scope, in the given directories. */
  function TwoOperators(m: Manifest, d1: Dir, d2: Dir): World { With(OneOperator(m, d1), 2, NewOp(m, d2)) }

  /** Both operators checked the thread and the account before either wrote anything. */
  function BothClear(m: Manifest, d1: Dir, d2: Dir): World {
    var b := TwoOperators(m, d1, d2);
    With(With(b, 1, Cleared(b, NewOp(m, d1))), 2, Cleared(b, NewOp(m, d2)))
  }

  lemma BothOperatorsClear(m: Manifest, d1: Dir, d2: Dir)
    requires ManifestOk(m)
    ensures Reaches(Commissioned(m), BothClear(m, d1, d2))
  {
    hide Reaches, SafetyLive;
    var w, b := Commissioned(m), TwoOperators(m, d1, d2);
    OneOperatorStarts(m, d1);
    Then(w, OneOperator(m, d1), StartOperator(2, m, d2, 7), b);
    StillReady(OneOperator(m, d1), b, NewOp(m, d1), NewOp(m, d1));
    Preflight(b, 1);
    var c := With(b, 1, Cleared(b, b.ops[1]));
    Afterwards(w, b, c);
    StillReady(OneOperator(m, d1), c, NewOp(m, d1), NewOp(m, d2));
    Preflight(c, 2);
    Afterwards(w, c, With(c, 2, Cleared(c, c.ops[2])));
  }

  /** Readiness depends on no operator's record. */
  lemma StillReady(w: World, u: World, op: Op, other: Op)
    requires Ready(w, op) && u == w.(ops := u.ops) && w.intents == map[] && w.receipts == map[]
    requires other.m == op.m && other.stopRun == op.stopRun
    ensures Ready(u, other)
  {
    assert ActiveSubs(u) == ActiveSubs(w);
  }

  /** Separate directories do not exclude each other: two operators can both POST for one scope. */
  lemma TwoDirectoriesCanBothPost(m: Manifest, d1: Dir, d2: Dir) returns (w: World, u: World)
    requires ManifestOk(m) && WindowCheck(m.owner) && d1 != d2
    ensures Initial(w) && Reaches(w, u)
    ensures |u.posts| == 2 && u.posts[0].scope == m.scope && u.posts[1].scope == m.scope
    ensures u.posts[0].dir == d1 && u.posts[1].dir == d2
  {
    hide Reaches, Initial, Ready;
    w := Commissioned(m);
    OneOperatorStarts(m, d1);
    BothOperatorsClear(m, d1, d2);
    var d := BothClear(m, d1, d2);
    PostRuns(d, 1, "first-id");
    var e := Posted(d, 1, "first-id");
    Afterwards(w, d, e);
    PostRuns(e, 2, "second-id");
    u := Posted(e, 2, "second-id");
    Afterwards(w, e, u);
  }

  /** A run of the protocol makes two POSTs for the scope, from these directories in this order. */
  ghost predicate BothPost(s: Scope, d1: Dir, d2: Dir) {
    exists w, u, i: nat, j: nat :: Initial(w) && Reaches(w, u) && TwoPosts(u, s, d1, d2, i, j)
  }

  predicate TwoPosts(u: World, s: Scope, d1: Dir, d2: Dir, i: nat, j: nat) {
    && i < j < |u.posts| && u.posts[i].scope == s && u.posts[j].scope == s
    && u.posts[i].dir == d1 && u.posts[j].dir == d2
  }

  /** Exactly when one scope can be POSTed for twice: from two different private directories. */
  lemma TwoPostsExactlyFromTwoDirectories(m: Manifest, d1: Dir, d2: Dir)
    requires ManifestOk(m) && WindowCheck(m.owner)
    ensures BothPost(m.scope, d1, d2) <==> d1 != d2
  {
    hide Initial, Run;
    if d1 != d2 {
      var w, u := TwoDirectoriesCanBothPost(m, d1, d2);
      assert TwoPosts(u, m.scope, d1, d2, 0, 1);
    }
    if BothPost(m.scope, d1, d2) {
      var w, u, i: nat, j: nat :| Initial(w) && Reaches(w, u) && TwoPosts(u, m.scope, d1, d2, i, j);
      var es :| Run(w, es) == u;
      if d1 == d2 { OnePostPerDirectory(w, es, i, j); }
    }
  }
}
