/** What the invariant means for whole runs of the paid protocol. */
module PaidTheorems {
  import opened Common
  import opened OwnerLedger
  import opened PaidProtocol
  import opened PaidSafety

  lemma LaterTransitive(w: World, u: World, v: World)
    requires Later(w, u) && Later(u, v)
    ensures Later(w, v)
  {
    hide OpLater, SubLater, RowLater, WatcherLater, Late;
    OpsLaterTransitive(w, u, v);
    SubsLaterTransitive(w, u, v);
    RowsLaterTransitive(w.owners, u.owners, v.owners);
    WatchersLaterTransitive(w, u, v);
    LateTransitive(w, u, v);
  }

  lemma OpsLaterTransitive(w: World, u: World, v: World)
    requires OpsAreLater(w, u) && OpsAreLater(u, v)
    ensures OpsAreLater(w, v)
  {
    forall o | o in w.ops ensures o in v.ops && OpLater(w.ops[o], v.ops[o]) { assert OpLater(w.ops[o], u.ops[o]); }
  }

  lemma SubsLaterTransitive(w: World, u: World, v: World)
    requires SubsLater(w, u) && SubsLater(u, v)
    ensures SubsLater(w, v)
  {
    forall id | id in w.subs && w.subs[id].origin.By? ensures id in v.subs && SubLater(w.subs[id], v.subs[id]) {
      assert SubLater(w.subs[id], u.subs[id]);
    }
  }

  lemma RowsLaterTransitive(t: Table, u: Table, v: Table)
    requires RowsLater(t, u) && RowsLater(u, v)
    ensures RowsLater(t, v)
  {
    forall s | s in t ensures s in v && RowLater(t[s], v[s]) { assert RowLater(t[s], u[s]); }
  }

  lemma WatchersLaterTransitive(w: World, u: World, v: World)
    requires WatchersLater(w, u) && WatchersLater(u, v) && w.now <= u.now
    ensures WatchersLater(w, v)
  {
    forall r | r in w.watchers ensures r in v.watchers && WatcherLater(w.watchers[r], v.watchers[r], w.now) {
      assert WatcherLater(w.watchers[r], u.watchers[r], w.now);
    }
  }

  lemma LateTransitive(w: World, u: World, v: World)
    requires OpsAreLater(w, u) && OpsAreLater(u, v) && NewcomersAreLate(w, u) && NewcomersAreLate(u, v) &&
        w.issue <= u.issue
    ensures NewcomersAreLate(w, v)
  {
    forall o | o in v.ops && (o !in w.ops || w.ops[o].pc.AtIssue?) ensures Late(v.ops[o], |w.issue|) {
      if o in u.ops { assert Late(u.ops[o], |w.issue|) && OpLater(u.ops[o], v.ops[o]); }
    }
  }

  lemma LaterReflexive(w: World)
    ensures Later(w, w)
  { }

  lemma {:induction false} RunKeeps(w: World, es: seq<Event>)
    requires Inv(w)
    ensures Inv(Run(w, es)) && Later(w, Run(w, es))
    decreases |es|
  {
    hide Inv, Later, Next;
    if es == [] {
      LaterReflexive(w);
    } else {
      StepKeeps(w, es[0]);
      RunKeeps(Next(w, es[0]), es[1..]);
      LaterTransitive(w, Next(w, es[0]), Run(w, es));
    }
  }

  lemma InitialInv(w: World)
    requires Initial(w)
    ensures Inv(w)
  { }

  // ------------------------------------------------------------------
  // At most one POST
  // ------------------------------------------------------------------

  /** The intent file is created exclusively, so a private directory pays for one POST, whatever the scope. */
  lemma OnePostPerDirectory(w: World, es: seq<Event>, i: nat, j: nat)
    requires Initial(w)
    requires var u := Run(w, es); i < |u.posts| && j < |u.posts| && u.posts[i].dir == u.posts[j].dir
    ensures i == j
  {
    hide Run;
    InitialInv(w);
    RunKeeps(w, es);
    var u := Run(w, es);
    assert PostOk(u, u.posts[i]) && PostOk(u, u.posts[j]);
    assert FlagsOk(u.ops[u.posts[i].op]) && FlagsOk(u.ops[u.posts[j].op]);
  }

  /**
   Two POSTs for one scope happen only as a race between separate directories:
   each operator looked at the issue thread before the other's intent was there.
   */
  lemma OnlyRacingOperatorsShareAScope(w: World, es: seq<Event>, i: nat, j: nat)
    requires Initial(w)
    requires var u := Run(w, es); i < j < |u.posts| && u.posts[i].scope == u.posts[j].scope
    ensures var u := Run(w, es);
            && u.posts[i].dir != u.posts[j].dir
            && u.posts[i].op in u.ops && u.posts[j].op in u.ops
            && var a, b := u.ops[u.posts[i].op], u.ops[u.posts[j].op];
            && a.announced.Some? && b.announced.Some?
            && a.seen <= b.announced.value && b.seen <= a.announced.value
  {
    hide Run;
    InitialInv(w);
    RunKeeps(w, es);
    var u := Run(w, es);
    if u.posts[i].dir == u.posts[j].dir { OnePostPerDirectory(w, es, i, j); }
    assert PostOk(u, u.posts[i]) && PostOk(u, u.posts[j]);
    assert FlagsOk(u.ops[u.posts[i].op]) && FlagsOk(u.ops[u.posts[j].op]);
    assert IssueOk(u.issue, u.ops[u.posts[i].op]) && IssueOk(u.issue, u.ops[u.posts[j].op]);
  }

  lemma PostWasAnnounced(u: World, i: nat) returns (k: nat)
    requires OpsInv(u) && IssueInv(u) && PostInv(u) && i < |u.posts|
    ensures k < |u.issue| && u.issue[k].body == Intent(u.posts[i].scope)
  {
    assert PostOk(u, u.posts[i]);
    var op := u.ops[u.posts[i].op];
    assert FlagsOk(op) && IssueOk(u.issue, op);
    k := op.announced.value;
  }

  lemma PosterSawNoIntent(v: World, j: nat, length: nat)
    requires OpsInv(v) && IssueInv(v) && PostInv(v) && j < |v.posts| && length <= |v.issue|
    requires v.posts[j].op in v.ops ==> Late(v.ops[v.posts[j].op], length)
    ensures forall k :: 0 <= k < length ==> v.issue[k].body != Intent(v.posts[j].scope)
  {
    assert PostOk(v, v.posts[j]);
    var op := v.ops[v.posts[j].op];
    assert FlagsOk(op) && IssueOk(v.issue, op);
  }

  /**
   Once a POST for a scope happened, an operator that had not looked at the thread by
   then never POSTs for it, in any directory.
   */
  lemma LateOperatorsNeverPost(w: World, es: seq<Event>, more: seq<Event>, i: nat, j: nat)
    requires Initial(w)
    requires var u, v := Run(w, es), Run(Run(w, es), more);
             i < |u.posts| && j < |v.posts| && (v.posts[j].op !in u.ops || u.ops[v.posts[j].op].pc.AtIssue?)
    ensures Run(Run(w, es), more).posts[j].scope != Run(w, es).posts[i].scope
  {
    hide Run;
    InitialInv(w);
    RunKeeps(w, es);
    RunKeeps(Run(w, es), more);
    var k := PostWasAnnounced(Run(w, es), i);
    PosterSawNoIntent(Run(Run(w, es), more), j, |Run(w, es).issue|);
  }

  // ------------------------------------------------------------------
  // Nothing bought is lost track of
  // ------------------------------------------------------------------

  /** The intent of this operator is on disk and in the public thread. */
  ghost predicate DurableIntent(w: World, o: OpId) {
    && o in w.ops && w.ops[o].dir in w.intents && w.intents[w.ops[o].dir] == o
    && IntentAnnounced(w.issue, w.ops[o].m.scope)
  }

  ghost predicate UnverifiedDelete(w: World, o: OpId, id: SubId) {
    exists i :: 0 <= i < |w.deletions| && w.deletions[i] == Deletion(Operator(o), id, false)
  }

  /**
   In every reachable world, each active subscription the protocol created is
   bound in its scope's owner row, or held by a live operator, or else its
   operator crashed, never received the id, or could not verify its delete;
   and its intent is durable, so its directory and its scope stay closed.
   */
  lemma NothingSilentlyAbandoned(w: World, es: seq<Event>, id: SubId)
    requires Initial(w)
    requires var u := Run(w, es); id in u.subs && u.subs[id].active && u.subs[id].origin.By?
    ensures var u := Run(w, es); var o := u.subs[id].origin.op;
            && DurableIntent(u, o)
            && (|| RowHolds(u, u.ops[o].m.scope, Some(id))
                || (Live(u.ops[o].pc) && u.ops[o].created == Some(id))
                || u.ops[o].pc.Crashed?
                || u.ops[o].created.None?
                || (u.ops[o].pc.Exited? && UnverifiedDelete(u, o, id)))
  {
    hide Run;
    InitialInv(w);
    RunKeeps(w, es);
    var u := Run(w, es);
    var o := u.subs[id].origin.op;
    var op := u.ops[o];
    assert FlagsOk(op) && IssueOk(u.issue, op);
    assert u.issue[op.announced.value].body == Intent(op.m.scope);
    if op.pc.Exited? && op.created.Some? {
      var i :| 0 <= i < |u.deletions| && u.deletions[i].actor == Operator(o) && u.deletions[i].id == op.created.value;
      assert DeletionOk(u, u.deletions[i]);
      assert u.deletions[i] == Deletion(Operator(o), id, false);
    }
  }

  /** An operator that leaves without crashing either sees its id bound or has asked for that id's delete. */
  lemma OperatorsCleanUpAfterThemselves(w: World, es: seq<Event>, o: OpId)
    requires Initial(w)
    requires var u := Run(w, es); o in u.ops && u.ops[o].created.Some? && (u.ops[o].pc.Finished? || u.ops[o].pc.Exited?)
    ensures var u := Run(w, es); var op := u.ops[o];
            || RowHolds(u, op.m.scope, op.created)
            || exists i ::
                 0 <= i < |u.deletions| && u.deletions[i].actor == Operator(o) && u.deletions[i].id == op.created.value
  {
    hide Run;
    InitialInv(w);
    RunKeeps(w, es);
  }

  // ------------------------------------------------------------------
  // Bindings and deletions
  // ------------------------------------------------------------------

  lemma BoundRow(u: World, v: World, s: Scope)
    requires OwnerInv(u) && OwnerInv(v) && Later(u, v) && s in u.owners && u.owners[s].providerId.Some?
    ensures BoughtFor(u, s, u.owners[s].providerId.value)
    ensures s in v.owners && v.owners[s].providerId == u.owners[s].providerId &&
        (v.owners[s].state.ACTIVE? || v.owners[s].state.STOPPED?)
    ensures forall s' :: s' in v.owners && v.owners[s'].providerId == u.owners[s].providerId ==> s' == s
  { }

  /**
   A scope is bound once and for all, to the id one of its own operators was given, and
   no other row ever carries that id.
   */
  lemma BoundOnceToAPurchase(w: World, es: seq<Event>, more: seq<Event>, s: Scope)
    requires Initial(w)
    requires var u := Run(w, es); s in u.owners && u.owners[s].providerId.Some?
    ensures var u, v := Run(w, es), Run(Run(w, es), more);
            && BoughtFor(u, s, u.owners[s].providerId.value)
            && s in v.owners && v.owners[s].providerId == u.owners[s].providerId
            && (v.owners[s].state.ACTIVE? || v.owners[s].state.STOPPED?)
            && forall s' :: s' in v.owners && v.owners[s'].providerId == u.owners[s].providerId ==> s' == s
  {
    hide Run;
    InitialInv(w);
    RunKeeps(w, es);
    RunKeeps(Run(w, es), more);
    BoundRow(Run(w, es), Run(Run(w, es), more), s);
  }

  /**
   Whatever the provider lists and whoever else uses the account, only ids this
   protocol bought are ever deleted, each by a process entitled to it.
   */
  lemma OnlyOwnedIdsAreDeleted(w: World, es: seq<Event>, i: nat)
    requires Initial(w)
    requires i < |Run(w, es).deletions|
    ensures var u := Run(w, es); var d := u.deletions[i];
            && d.id in u.subs && u.subs[d.id].origin.By?
            && (match d.actor
                case Operator(o) => u.subs[d.id].origin == By(o)
                case Stopper(r) =>
                  && r in u.watchers && BoughtFor(u, u.watchers[r].m.scope, d.id)
                  && RowHolds(u, u.watchers[r].m.scope, Some(d.id)))
            && (d.verified ==> !u.subs[d.id].active)
  {
    hide Run;
    InitialInv(w);
    RunKeeps(w, es);
    var u := Run(w, es);
    assert DeletionOk(u, u.deletions[i]);
    if u.deletions[i].actor.Stopper? {
      assert BoughtFor(u, u.watchers[u.deletions[i].actor.run].m.scope, u.deletions[i].id);
    }
  }

  /**
   Since protocol subscriptions never come back, a STOPPED row's purchase is off in
   every reachable world, for good.
   */
  lemma StoppedMeansInactive(w: World, es: seq<Event>, more: seq<Event>, s: Scope)
    requires Initial(w)
    requires var u := Run(w, es); s in u.owners && u.owners[s].state.STOPPED?
    ensures var u, v := Run(w, es), Run(Run(w, es), more);
            && u.owners[s].providerId.Some?
            && Switched(u, u.owners[s].providerId.value) && Switched(v, u.owners[s].providerId.value)
  {
    hide Run;
    InitialInv(w);
    RunKeeps(w, es);
    RunKeeps(Run(w, es), more);
  }

  /** One watcher deletes at most one id, however long it runs. */
  lemma WatcherDeletesOneId(w: World, es: seq<Event>, i: nat, j: nat, r: RunId)
    requires Initial(w)
    requires var u := Run(w, es);
             i < |u.deletions| && j < |u.deletions| && u.deletions[i].actor == Stopper(r) &&
               u.deletions[j].actor == Stopper(r)
    ensures Run(w, es).deletions[i].id == Run(w, es).deletions[j].id
  {
    hide Run;
    InitialInv(w);
    RunKeeps(w, es);
    var u := Run(w, es);
    assert DeletionOk(u, u.deletions[i]) && DeletionOk(u, u.deletions[j]);
  }

  // ------------------------------------------------------------------
  // What a POST rests on
  // ------------------------------------------------------------------

  /**
   Every POST was preceded, in this order and inside the fifteen seconds after
   the start, by a live STOP run of the same scope with an accepted ARMED
   receipt, an armed session, an unchanged balance, a list with nothing active,
   and a clock reading.
   */
  lemma PostsRestOnFreshEvidence(w: World, es: seq<Event>, i: nat)
    requires Initial(w)
    requires i < |Run(w, es).posts|
    ensures var u := Run(w, es); var p := u.posts[i]; var e := p.evidence;
            && p.op in u.ops && p.scope == u.ops[p.op].m.scope
            && var m := u.ops[p.op].m;
            && e.armed < |u.issue| && u.issue[e.armed].bot
            && u.issue[e.armed].body == Armed(m.scope, m.head, m.owner.receiver, m.owner.stop)
            && e.liveAt - u.issue[e.armed].at <= 12 * MINUTE && RunLiveAt(u, e.run, m, e.liveAt)
            && m.owner.start <= e.liveAt <= e.sessionAt <= e.balanceAt <= e.listAt <= e.clockAt <= m.owner.start + 15000
            && e.clockAt <= p.at && e.balance == m.credits && e.active == {}
            && e.session.Some? && e.session.value.armed && e.session.value.providerId == None
            && e.session.value.expires == m.owner.expires
            && e.owner.Some? && e.owner.value.state == PREPARED && e.owner.value.providerId == None
            && var row := e.owner.value.frozen;
            && row.receiver == m.owner.receiver && row.authorization == m.owner.authorization
            && row.ticket == m.owner.ticket && row.start == m.owner.start && row.stop == m.owner.stop
  {
    hide Run;
    InitialInv(w);
    RunKeeps(w, es);
    assert PostOk(Run(w, es), Run(w, es).posts[i]);
  }

  /**
   The rearm offered after the start boundary can never succeed: the restore
   refuses from thirty seconds before the start, and the boundary has passed.
   So a session row lost after that instant ends the attempt without a POST.
   */
  lemma LastMomentRearmNeverSucceeds(w: World, es: seq<Event>, o: OpId)
    requires Initial(w)
    requires var u := Run(w, es); o in u.ops && u.ops[o].pc == AtRestore(true)
    ensures var u := Run(w, es);
            && Step(u, Act(o, RestoreSession)).None?
            && forall a :: Step(u, Act(o, a)).Some? ==> a.Raise? || a.Crash?
  {
    InitialInv(w);
    RunKeeps(w, es);
    var u := Run(w, es);
    assert EvidenceOk(u, u.ops[o]);
    forall a | Step(u, Act(o, a)).Some? ensures a.Raise? || a.Crash? {
      OnlyWayOut(u, o, a);
    }
  }

  lemma OnlyWayOut(u: World, o: OpId, a: OpStep)
    requires o in u.ops && u.ops[o].pc == AtRestore(true) && u.ops[o].m.owner.start <= u.now
    requires Operate(u, o, a).Some?
    ensures a.Raise? || a.Crash?
  { }
}
