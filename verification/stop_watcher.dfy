/**
 The exact-owned STOP watcher, as the loop the script runs, against an
 environment that answers every call however it likes.
 */
module StopWatcher {
  import opened Common
  import opened OwnerLedger

  const POLL_INTERVAL: int := 25000
  const ACTIVE_GRACE: int := 120000
  const EARLY_STOP: int := 350

  /** The published receiver's health is read up to six times, with these pauses in between. */
  const HEALTH_READS: int := 6
  const FIRST_PAUSE: int := 1500
  const NEXT_PAUSE: int := 3000

  datatype Pins = Pins(owner: Frozen, credits: int)

  /** An error of a free provider read: transport-like or not, rate-limited or not. */
  datatype Fault = Fault(transient: bool, rateLimited: bool)

  datatype Sub = Sub(id: SubId, active: bool)

  /** One health read: verified, refused for good (a wrong status or identity), or worth another try. */
  datatype Health = Verified | Refused | Unreachable

  /**
   All the environment decides about one call: its duration and, for whichever
   call it is, the answer. `accepted` is the answer to a call that asks for one
   thing only: the checked-out commit, the reader's role, the posted receipt.
   */
  datatype Reply = Reply(before: nat, after: nat, overshoot: nat, deleteTakes: nat,
                         health: Health, databaseUp: bool, epoch: int, rows: seq<Row>,
                         fault: Option<Fault>, apiUnits: int, subs: seq<Sub>,
                         deleted: bool, accepted: bool)

  datatype Error = Provider(fault: Fault) | Database | Hold(code: string)

  datatype Try<+T> = Ok(value: T) | Thrown(error: Error)

  datatype Deletion = Deletion(id: SubId, at: int, verified: bool)

  datatype Reading = Reading(charge: int, subs: seq<Sub>)

  datatype PollEnd = Again | Leave(terminal: string) | ReturnNow

  datatype Outcome = Returned | Threw(error: Error)

  predicate IdChar(c: char) { 'a' <= c <= 'z' || 'A' <= c <= 'Z' || '0' <= c <= '9' || c == '_' || c == '-' }

  /** The shape test both the create response and the watcher apply. */
  predicate ValidId(id: SubId) { 6 <= |id| <= 128 && forall i :: 0 <= i < |id| ==> IdChar(id[i]) }

  /** validateGate05ScienceStopPinsV39, the clock part. */
  predicate Admitted(start: int, stop: int, now: int) {
    stop - start == HOUR && start - now <= 10 * MINUTE && now - start <= MINUTE && stop - now >= 30000
  }

  datatype Decision = Retry | DeleteNow | NoGuess

  /** gate05TelemetryDecisionV39 for a clock that has not run backwards. */
  function Decide(now: int, firstFault: int, known: bool, mayBeCreating: bool, grace: int): Decision {
    if mayBeCreating && !known then NoGuess
    else if now - firstFault <= grace then Retry
    else if known then DeleteNow
    else NoGuess
  }

  predicate ActiveIn(subs: seq<Sub>, id: SubId) { Sub(id, true) in subs }

  predicate AnyActive(subs: seq<Sub>) { exists x :: x in subs && x.active }

  predicate ForeignActive(subs: seq<Sub>, known: Option<SubId>) {
    exists x :: x in subs && x.active && Some(x.id) != known
  }

  function Matches(subs: seq<Sub>, id: SubId): nat
  {
    if subs == [] then 0 else (if subs[0] == Sub(id, true) then 1 else 0) + Matches(subs[1..], id)
  }

  predicate VerifiedIn(log: seq<Deletion>) { exists d :: d in log && d.verified }

  /** The row re-read before an emergency delete speaks against the pins or the remembered id. */
  predicate Contradicts(rows: seq<Row>, pins: Pins, id: SubId) {
    |rows| != 1 || rows[0].providerId != Some(id) || rows[0].frozen.authorization != pins.owner.authorization ||
    rows[0].frozen.ticket != pins.owner.ticket || rows[0].frozen.receiver != pins.owner.receiver
  }

  // ------------------------------------------------------------------
  // What the watch has to make of its readings, in their own terms
  // ------------------------------------------------------------------

  /** Six to 128 letters, digits, underscores or hyphens. */
  predicate WellShaped(id: SubId) {
    && 6 <= |id| <= 128
    && forall i :: 0 <= i < |id| ==>
         var u := id[i] as int; 48 <= u <= 57 || 65 <= u <= 90 || 97 <= u <= 122 || u == 45 || u == 95
  }

  /** One row with the five pins, whose id, if any, is well shaped and the one already known. */
  predicate RowAccepted(rows: seq<Row>, pins: Pins, known: Option<SubId>) {
    && |rows| == 1
    && var f, id := rows[0].frozen, rows[0].providerId;
    && f.receiver == pins.owner.receiver && f.authorization == pins.owner.authorization
    && f.ticket == pins.owner.ticket && f.start == pins.owner.start && f.stop == pins.owner.stop
    && (id != None ==> WellShaped(id.value) && (known == None || known == id))
  }

  /**
   A failed free read, seen at `seen` in a poll begun at `pollNow`, is waited
   out: with an id known for two minutes and only before the stop; without one
   for five minutes up to nine minutes before the start, and after that for
   fifteen seconds and only once the row has left PREPARED.
   */
  predicate FaultTolerated(pins: Pins, f: Fault, known: bool, prepared: bool, pollNow: int, seen: int, since: int) {
    && f.transient
    && if known then seen < pins.owner.stop && seen - since <= 120000
       else if pollNow < pins.owner.start - 540000 then seen - since <= 300000
       else !prepared && seen - since <= 15000
  }

  /** A failed read makes the watch delete only a known id, at the stop or after two minutes. */
  predicate FaultDeletes(pins: Pins, f: Fault, known: bool, seen: int, since: int) {
    f.transient && known && (seen >= pins.owner.stop || seen - since > 120000)
  }

  /** The owner's single row still has the id, receiver, authorization and ticket. */
  predicate RowConfirms(rows: seq<Row>, pins: Pins, known: Option<SubId>) {
    && |rows| == 1 && rows[0].providerId == known && rows[0].frozen.receiver == pins.owner.receiver
    && rows[0].frozen.authorization == pins.owner.authorization && rows[0].frozen.ticket == pins.owner.ticket
  }

  predicate ListedOnce(subs: seq<Sub>, known: Option<SubId>) {
    known != None && multiset(subs)[Sub(known.value, true)] == 1
  }

  predicate SomeoneElseActive(subs: seq<Sub>, known: Option<SubId>) {
    exists i :: 0 <= i < |subs| && subs[i].active && known != Some(subs[i].id)
  }

  /** A complete reading after which the watch simply goes on. */
  predicate ReadingHealthy(pins: Pins, row: Row, pollNow: int, reading: Reading, known: Option<SubId>,
      since: Option<int>) {
    && 0 <= reading.charge < 350 && pollNow < pins.owner.stop && (row.state == PREPARED || row.state == ACTIVE)
    && (SomeoneElseActive(reading.subs, known) ==>
          known == None && (since == None || pollNow - since.value <= 8000))
    && (row.state == ACTIVE && pollNow > pins.owner.start + 30000 ==> ListedOnce(reading.subs, known))
  }

  /**
   A complete reading deletes the known and listed id beside foreign activity, at the
   stop, or from 350 credits on.
   */
  predicate ReadingDeletes(pins: Pins, row: Row, pollNow: int, reading: Reading, known: Option<SubId>) {
    && reading.charge >= 0 && ListedOnce(reading.subs, known)
    && (|| SomeoneElseActive(reading.subs, known)
        || ((row.state == PREPARED || row.state == ACTIVE) && (reading.charge >= 350 || pollNow >= pins.owner.stop)))
  }

  /** The charge has not fallen back, and any foreign activity is recent and no id known. */
  predicate Calm(reading: Reading, pollNow: int, known: Option<SubId>, since: Option<int>) {
    && reading.charge >= 0
    && (SomeoneElseActive(reading.subs, known) ==>
          known == None && (since == None || pollNow - since.value <= 8000))
  }

  predicate NobodyActive(subs: seq<Sub>) { forall i :: 0 <= i < |subs| ==> !subs[i].active }

  lemma IdShape(id: SubId)
    ensures ValidId(id) <==> WellShaped(id)
  { }

  lemma {:induction false} MatchesCounts(subs: seq<Sub>, id: SubId)
    ensures Matches(subs, id) == multiset(subs)[Sub(id, true)]
  {
    if subs != [] {
      MatchesCounts(subs[1..], id);
      assert subs == [subs[0]] + subs[1..];
    }
  }

  lemma ForeignIsSomeone(subs: seq<Sub>, known: Option<SubId>)
    ensures ForeignActive(subs, known) <==> SomeoneElseActive(subs, known)
  { }

  /**
   The top of the loop: a fresh reading, or a fault that began soon after one
   and is within its grace. `anchor` is the last instant the charge is known to
   have been under the threshold, `slack` one poll sleep.
   */
  predicate InTime(head: int, anchor: int, start: int, fault: Option<int>, latency: nat, slack: int) {
    match fault
    case None => head - anchor <= 4 * latency + slack
    case Some(f) =>
      f <= head && (head <= start || (head - f <= ACTIVE_GRACE + slack && f - anchor <= 6 * latency + slack))
  }

  /** One of six reads verified the receiver and the ones before it were worth repeating. */
  ghost predicate HealthVerified(script: nat -> Reply, from: nat) {
    exists k: nat :: VerifiedAt(script, from, k) && k < HEALTH_READS
  }

  /** Every other call in between is a pause. */
  ghost predicate VerifiedAt(script: nat -> Reply, from: nat, k: nat) {
    script(from + 2 * k).health.Verified? && UnreachableBefore(script, from, k)
  }

  ghost predicate UnreachableBefore(script: nat -> Reply, from: nat, k: nat) {
    forall j: nat :: j < k ==> script(from + 2 * j).health.Unreachable?
  }

  class Watcher {
    const pins: Pins
    const script: nat -> Reply
    /** What the provider has really charged by each instant. */
    const charged: int -> int
    const latency: nat
    const jitter: nat

    var step: nat
    var now: int
    var knownId: Option<SubId>
    var firstFault: Option<int>
    var deleteVerified: bool
    var unownedSince: Option<int>
    var epoch: int
    var log: seq<Deletion>
    var attempted: bool
    var conflict: bool
    ghost var seenAt: nat
    ghost var rereadAt: nat
    ghost var lastGood: Option<int>
    ghost var finalList: Option<seq<Sub>>

    constructor (pins: Pins, script: nat -> Reply, charged: int -> int, latency: nat, jitter: nat, now: int)
      ensures this.pins == pins && this.script == script && this.charged == charged
      ensures this.latency == latency && this.jitter == jitter && this.now == now
      ensures Sound() && knownId.None? && log == [] && firstFault.None? && lastGood.None? && finalList.None?
      ensures !attempted && !conflict
    {
      this.pins, this.script, this.charged, this.latency, this.jitter := pins, script, charged, latency, jitter;
      step, this.now, knownId, firstFault, deleteVerified := 0, now, None, None, false;
      unownedSince, epoch, log, attempted, conflict := None, 0, [], false, false;
      seenAt, rereadAt, lastGood, finalList := 0, 0, None, None;
    }

    // ----------------------------------------------------------------
    // What always holds
    // ----------------------------------------------------------------

    /** The id came from a database row matching every pin, and it is the only id ever deleted. */
    ghost predicate Owned()
      reads this`step, this`knownId, this`seenAt, this`log, this`deleteVerified
    {
      && (knownId.Some? ==>
            seenAt < step && RowAccepted(script(seenAt).rows, pins, knownId) &&
              script(seenAt).rows[0].providerId == knownId)
      && (log != [] ==> knownId.Some?) && (forall d :: d in log ==> knownId == Some(d.id))
      && (deleteVerified ==> VerifiedIn(log))
    }

    /** Every call ends within the latency and every sleep within the jitter. */
    ghost predicate Timely()
    {
      && (forall k: nat :: script(k).before + script(k).after <= latency && script(k).overshoot <= jitter)
      && 4 * latency + Slack() <= 9 * MINUTE && jitter <= 30000
    }

    ghost function Slack(): int { POLL_INTERVAL + jitter }

    /** Two polls, the grace and the calls around them. */
    ghost function Lag(): int { 2 * Slack() + ACTIVE_GRACE + 16 * latency }

    /** The last instant the charge is known to have been below the threshold: nothing is charged before the start. */
    ghost function Anchor(): int
      reads this`lastGood
    {
      if lastGood.None? then pins.owner.start else Max(lastGood.value, pins.owner.start)
    }

    /** The reading the anchor rests on was below the threshold, and the first delete followed it within the lag. */
    ghost predicate Metered()
      reads this`now, this`log, this`lastGood
    {
      && (lastGood.Some? ==>
            charged(lastGood.value) < EARLY_STOP && lastGood.value <= (if log == [] then now else log[0].at))
      && (Timely() && log != [] ==> log[0].at - Anchor() <= Lag())
    }

    ghost predicate Sound()
      reads this`step, this`now, this`knownId, this`seenAt, this`log, this`deleteVerified, this`lastGood
    {
      Owned() && Metered()
    }

    /** As long as nothing was deleted, the charge reading is at most this old. */
    ghost predicate Behind(age: int)
      reads this`now, this`log, this`lastGood
    {
      Timely() && log == [] ==> now - Anchor() <= age
    }

    /** `calls` calls after a loop head that was in time. */
    ghost predicate Since(head: int, calls: nat)
      reads this
    {
      && head <= now
      && (firstFault.Some? ==> firstFault.value <= head)
      && (Timely() && log == [] ==>
            now <= head + calls * latency && InTime(head, Anchor(), pins.owner.start, firstFault, latency, Slack()))
    }

    /** What `Sound` says about deletes. */
    lemma DeletesAreOwned()
      requires Sound()
      ensures (log != [] ==> knownId.Some?) && (deleteVerified ==> VerifiedIn(log))
    { }

    lemma LittleJitter()
      requires Timely()
      ensures jitter <= 30000
    { }

    lemma StillBehind(head: int, calls: nat)
      requires Since(head, calls) && calls <= 4
      ensures Behind(Lag() - 6 * latency)
    { }

    lemma AtHead(head: int)
      requires Since(head, 0)
      ensures Behind(Lag() - 10 * latency)
    { }

    twostate predicate Onward()
      reads this
    {
      && old(now) <= now && old(step) <= step && old(log) <= log
      && (old(knownId).Some? ==> knownId == old(knownId))
      && (old(deleteVerified) ==> deleteVerified)
    }

    // ----------------------------------------------------------------
    // Calls
    // ----------------------------------------------------------------

    method Call() returns (r: Reply, sampledAt: int)
      requires Sound()
      modifies this`step, this`now
      ensures Sound() && Onward() && step == old(step) + 1 && r == script(old(step))
      ensures Timely() ==> now <= old(now) + latency
      ensures sampledAt == old(now) + r.before && now == sampledAt + r.after
    {
      r := script(step);
      step := step + 1;
      sampledAt := now + r.before;
      now := sampledAt + r.after;
    }

    method Sleep(ms: nat)
      requires Sound()
      modifies this`step, this`now
      ensures Sound() && Onward()
      ensures Timely() ==> now <= old(now) + ms + jitter
      ensures step == old(step) + 1 && now == old(now) + ms + script(old(step)).overshoot
    {
      var r := script(step);
      step := step + 1;
      now := now + ms + r.overshoot;
    }

    /** deleteSubscriptionVerifiedStrict on the one known id. */
    method DeleteKnown() returns (verified: bool)
      requires Sound() && knownId.Some? && Behind(Lag())
      modifies this`step, this`now, this`log
      ensures Sound() && Onward()
      ensures log == old(log) + [Deletion(knownId.value, old(now), verified)] && (verified ==> VerifiedIn(log))
    {
      var r := script(step);
      step := step + 1;
      verified := r.deleted;
      log := log + [Deletion(knownId.value, now, verified)];
      assert log[|log| - 1] in log;
      now := now + r.deleteTakes;
    }

    /** A charge under the threshold, sampled at an instant already passed. */
    ghost method Date(sampledAt: int)
      requires Sound() && log == [] && sampledAt <= now && charged(sampledAt) < EARLY_STOP
      modifies this`lastGood
      ensures Sound() && lastGood == Some(sampledAt)
    {
      lastGood := Some(sampledAt);
    }

    /** A delete the loop itself asks for: an unverified one raises, which ends in the catch block. */
    method DeleteOrHold(code: string, remember: bool) returns (t: Try<PollEnd>)
      requires Sound() && knownId.Some? && Behind(Lag())
      modifies this`step, this`now, this`log, this`deleteVerified
      ensures Sound() && Onward()
      ensures exists v ::
        && log == old(log) + [Deletion(knownId.value, old(now), v)]
        && t == (if v then Ok(ReturnNow) else Thrown(Hold(code)))
      ensures t.Ok? ==> VerifiedIn(log)
      ensures deleteVerified == (old(deleteVerified) || (remember && t.Ok?))
    {
      var verified := DeleteKnown();
      if !verified { return Thrown(Hold(code)); }
      if remember { deleteVerified := true; }
      return Ok(ReturnNow);
    }

    /** owner(): the only place an id is ever learned. */
    method ReadOwner() returns (t: Try<Row>)
      requires Sound()
      modifies this`step, this`now, this`knownId, this`seenAt
      ensures Sound() && Onward() && step == old(step) + 1
      ensures now == old(now) + script(old(step)).before + script(old(step)).after
      ensures Timely() ==> now <= old(now) + latency
      ensures t.Ok? ==> script(old(step)).rows == [t.value]
      ensures knownId == (if t.Ok? && t.value.providerId.Some? then t.value.providerId else old(knownId))
      ensures t.Ok? <==> script(old(step)).databaseUp && RowAccepted(script(old(step)).rows, pins, old(knownId))
    {
      var r, _ := Call();
      if !r.databaseUp { return Thrown(Database); }
      if |r.rows| != 1 { return Thrown(Hold("EXACT_OWNER_NOT_FOUND")); }
      var row := r.rows[0];
      if !ExactOwner(row, pins.owner) { return Thrown(Hold("LOGGED_OWNER_FIELDS_MISMATCH")); }
      if row.providerId.Some? {
        IdShape(row.providerId.value);
        if !ValidId(row.providerId.value) || (knownId.Some? && knownId != row.providerId) {
          return Thrown(Hold("OWNED_PROVIDER_ID_INVALID_OR_CHANGED"));
        }
        knownId := row.providerId;
        seenAt := step - 1;
      }
      return Ok(row);
    }

    // ----------------------------------------------------------------
    // One poll
    // ----------------------------------------------------------------

    /** A running fault began within two calls of a loop head that was in time. */
    ghost predicate Faulted(pollNow: int)
      reads this
    {
      && pollNow <= now && firstFault.Some? && firstFault.value <= now
      && (Timely() ==> now <= pollNow + 4 * latency && firstFault.value - Anchor() <= 6 * latency + Slack())
    }

    /** The sleep that keeps a tolerated fault inside the timing of the loop. */
    method PauseAfterFault(rateLimited: bool, pollNow: int, early: bool, grace: int) returns (t: Try<PollEnd>)
      requires Sound() && log == [] && Faulted(pollNow) && now - firstFault.value <= grace
      requires grace <= ACTIVE_GRACE || early
      requires early ==> pollNow < pins.owner.start - 9 * MINUTE
      modifies this`step, this`now
      ensures Sound() && Onward() && t == Ok(Again) && Since(now, 0)
      ensures now == old(now) + (if rateLimited then 25000 else 5000) + script(old(step)).overshoot
    {
      Sleep(if rateLimited then POLL_INTERVAL else 5000);
      return Ok(Again);
    }

    method NoteFault(pollNow: int, cycleStart: int)
      requires Sound() && log == [] && Since(pollNow, 4) && pollNow <= cycleStart <= now
      requires Timely() ==> cycleStart <= pollNow + 2 * latency
      modifies this`firstFault
      ensures Sound() && Onward() && Faulted(pollNow)
      ensures firstFault == (if old(firstFault).None? then Some(cycleStart) else old(firstFault))
    {
      if firstFault.None? { firstFault := Some(cycleStart); }
    }

    /** Before the deadline, or with no id known: retry, delete or give up by the telemetry decision. */
    method OnGrace(f: Fault, pollNow: int, row: Row) returns (t: Try<PollEnd>)
      requires Sound() && log == [] && Faulted(pollNow) && Behind(Lag() - 6 * latency)
      modifies this`step, this`now, this`log, this`deleteVerified
      ensures Sound() && Onward() && Behind(Lag() - 6 * latency)
      ensures t == Ok(Again) ==> log == [] && Since(now, 0)
      ensures t == Ok(Again) ==> now == old(now) + (if f.rateLimited then 25000 else 5000) + script(old(step)).overshoot
      ensures t.Ok? ==> !t.value.Leave?
      ensures t == Ok(ReturnNow) ==> deleteVerified
      ensures t == Ok(Again) <==>
        if knownId.Some? then old(now) - firstFault.value <= 120000
        else if pollNow < pins.owner.start - 540000 then old(now) - firstFault.value <= 300000
        else row.state != PREPARED && old(now) - firstFault.value <= 15000
      ensures log != [] <==> knownId.Some? && old(now) - firstFault.value > 120000
      ensures t.Ok? && log != [] ==> t == Ok(ReturnNow)
      ensures t == Ok(ReturnNow) <==> log != [] && log[0].verified
    {
      var early := pollNow < pins.owner.start - 9 * MINUTE;
      var grace := if knownId.Some? then ACTIVE_GRACE else if early then 300000 else 15000;
      match Decide(now, firstFault.value, knownId.Some?, !early && knownId.None? && row.state.PREPARED?, grace)
      case DeleteNow => t := DeleteOrHold("TELEMETRY_OUTAGE_EXACT_DELETE_UNCONFIRMED", true);
      case NoGuess => t := Thrown(Provider(f));
      case Retry => t := PauseAfterFault(f.rateLimited, pollNow, early, grace);
    }

    /** The catch around the free balance and list reads. */
    method OnTelemetryFault(f: Fault, pollNow: int, cycleStart: int, row: Row) returns (t: Try<PollEnd>)
      requires Sound() && log == [] && Since(pollNow, 4) && pollNow <= cycleStart <= now
      requires Timely() ==> cycleStart <= pollNow + 2 * latency
      modifies this`step, this`now, this`log, this`firstFault, this`deleteVerified
      ensures Sound() && Onward() && Behind(Lag() - 6 * latency)
      ensures t == Ok(Again) ==> log == [] && Since(now, 0)
      ensures t == Ok(Again) ==> now == old(now) + (if f.rateLimited then 25000 else 5000) + script(old(step)).overshoot
      ensures t.Ok? ==> !t.value.Leave?
      ensures t == Ok(ReturnNow) ==> deleteVerified
      ensures var since := if old(firstFault).None? then cycleStart else old(firstFault).value;
        && (t == Ok(Again) <==>
              FaultTolerated(pins, f, knownId.Some?, row.state == PREPARED, pollNow, old(now), since))
        && (log != [] <==> FaultDeletes(pins, f, knownId.Some?, old(now), since))
        && (f.transient ==> firstFault == Some(since))
      ensures t == Ok(ReturnNow) <==> log != [] && log[0].verified
    {
      hide Sound, Timely, Since, Faulted, VerifiedIn;
      StillBehind(pollNow, 4);
      if !f.transient { return Thrown(Provider(f)); }
      NoteFault(pollNow, cycleStart);
      if pins.owner.stop <= now && knownId.Some? {
        t := DeleteOrHold("STOP_DEADLINE_EXACT_DELETE_UNCONFIRMED", true);
      } else {
        t := OnGrace(f, pollNow, row);
      }
    }

    /** A call's duration. */
    function Took(k: nat): nat { script(k).before + script(k).after }

    /** The balance is read first, then the list; the charge is the one at the balance's own instant. */
    ghost predicate FreeRead(from: nat, at: int, t: Try<Reading>, until: int, next: nat) {
      var b, l := script(from), script(from + 1);
      if b.fault != None then t == Thrown(Provider(b.fault.value)) && until == at + Took(from) && next == from + 1
      else
        && until == at + Took(from) + Took(from + 1) && next == from + 2
        && t == if l.fault != None then Thrown(Provider(l.fault.value))
                else Ok(Reading(charged(at + b.before), l.subs))
    }

    /** The two free reads of a poll; both succeeding ends a fault and dates the charge. */
    method ReadFree(pollNow: int) returns (t: Try<Reading>)
      requires Sound() && log == [] && Since(pollNow, 2)
      modifies this`step, this`now, this`firstFault, this`lastGood
      ensures Sound() && Onward() && log == []
      ensures t.Thrown? ==> t.error.Provider? && Since(pollNow, 4) && firstFault == old(firstFault)
      ensures FreeRead(old(step), old(now), t, now, step)
      ensures t.Ok? ==> firstFault.None? && Behind(Lag() - 6 * latency)
      ensures t.Ok? && 0 <= t.value.charge < EARLY_STOP ==> Behind(2 * latency)
    {
      hide Sound, Timely;
      StillBehind(pollNow, 2);
      var b, sampledAt := Call();
      if b.fault.Some? { return Thrown(Provider(b.fault.value)); }
      var l, _ := Call();
      if l.fault.Some? { return Thrown(Provider(l.fault.value)); }
      firstFault := None;
      var charge := charged(sampledAt);
      if charge < EARLY_STOP { Date(sampledAt); }
      return Ok(Reading(charge, l.subs));
    }

    /** Foreign activity next to a known id: stop our own subscription, never theirs, and raise. */
    method CheckForeign(subs: seq<Sub>, pollNow: int) returns (e: Option<Error>)
      requires Sound() && log == [] && Behind(Lag() - 6 * latency)
      modifies this`step, this`now, this`log, this`unownedSince
      ensures Sound() && Onward() && Behind(Lag() - 6 * latency)
      ensures e.None? <==>
        (SomeoneElseActive(subs, knownId) ==>
           knownId == None && (old(unownedSince) == None || pollNow - old(unownedSince).value <= 8000))
      ensures e.None? ==> log == [] && now == old(now) && step == old(step)
      ensures log != [] <==> SomeoneElseActive(subs, knownId) && ListedOnce(subs, knownId)
      ensures unownedSince == if !SomeoneElseActive(subs, knownId) then None
                              else if knownId == None && old(unownedSince) == None then Some(pollNow)
                                else old(unownedSince)
    {
      ForeignIsSomeone(subs, knownId);
      if knownId.Some? { MatchesCounts(subs, knownId.value); }
      if !ForeignActive(subs, knownId) { unownedSince := None; return None; }
      if knownId.Some? {
        if Matches(subs, knownId.value) == 1 { var _ := DeleteKnown(); }
        return Some(Hold("FOREIGN_ACTIVE_BILLABLE_INCIDENT"));
      }
      if unownedSince.None? { unownedSince := Some(pollNow); }
      return if pollNow - unownedSince.value > 8000 then Some(Hold("BILLABLE_ACTIVE_NO_EXACT_OWNED_ID")) else None;
    }

    /** The row is open and the stop has come or the charge has reached 350 credits. */
    predicate AtLimit(row: Row, pollNow: int, reading: Reading) {
      (row.state == PREPARED || row.state == ACTIVE) && (pollNow >= pins.owner.stop || reading.charge >= 350)
    }

    /** How the watch ends at the deadline or the credit threshold, after a delete of the id if it was listed. */
    function LimitEnd(reading: Reading): Try<PollEnd>
      reads this`log
    {
      if log != [] then
        if !log[0].verified then Thrown(Hold("OWNED_PROVIDER_DELETE_NOT_VERIFIED"))
        else Ok(Leave(if reading.charge < 350 then "TIME_STOP" else "CREDIT_EARLY_STOP"))
      else if NobodyActive(reading.subs) then Ok(Leave("NO_ACTIVE_SUBSCRIPTION"))
      else Thrown(Hold("TERMINAL_STOP_ID_UNCONFIRMED"))
    }

    /** The deadline or the credit threshold has been reached. */
    method OnLimit(reading: Reading) returns (t: Try<PollEnd>)
      requires Sound() && log == [] && Behind(Lag() - 6 * latency)
      modifies this`step, this`now, this`log, this`deleteVerified
      ensures Sound() && Onward() && Behind(Lag() - 6 * latency)
      ensures t.Ok? ==> t.value.Leave? && (VerifiedIn(log) || NobodyActive(reading.subs))
      ensures log != [] <==> ListedOnce(reading.subs, knownId)
      ensures deleteVerified == (old(deleteVerified) || (log != [] && log[0].verified))
      ensures t == LimitEnd(reading)
    {
      if knownId.Some? { MatchesCounts(reading.subs, knownId.value); }
      if knownId.Some? && Matches(reading.subs, knownId.value) == 1 {
        var d := DeleteOrHold("OWNED_PROVIDER_DELETE_NOT_VERIFIED", true);
        if d.Thrown? { return d; }
        return Ok(Leave(if reading.charge >= EARLY_STOP then "CREDIT_EARLY_STOP" else "TIME_STOP"));
      }
      if !AnyActive(reading.subs) { return Ok(Leave("NO_ACTIVE_SUBSCRIPTION")); }
      return Thrown(Hold("TERMINAL_STOP_ID_UNCONFIRMED"));
    }

    /** Twenty-five seconds, less when the stop is near, never under a quarter of a second. */
    function PollSleep(at: int): int {
      if pins.owner.stop - at <= 250 then 250 else if pins.owner.stop - at <= 25000 then pins.owner.stop - at else 25000
    }

    method Pause(pollNow: int) returns (t: Try<PollEnd>)
      requires Sound() && log == [] && firstFault.None? && Behind(2 * latency)
      modifies this`step, this`now
      ensures Sound() && Onward() && t == Ok(Again) && Since(now, 0)
      ensures now == old(now) + PollSleep(old(now)) + script(old(step)).overshoot
    {
      Sleep(Min(POLL_INTERVAL, Max(250, pins.owner.stop - now)));
      return Ok(Again);
    }

    /** What a poll does with a complete reading and the row's state, foreign activity apart. */
    method JudgeState(row: Row, pollNow: int, reading: Reading) returns (t: Try<PollEnd>)
      requires Sound() && log == [] && firstFault.None? && Behind(Lag() - 6 * latency)
      requires reading.charge < EARLY_STOP ==> Behind(2 * latency)
      modifies this`step, this`now, this`log, this`deleteVerified
      ensures Sound() && Onward() && Behind(Lag() - 6 * latency)
      ensures t == Ok(Again) <==>
        && reading.charge < 350 && pollNow < pins.owner.stop && (row.state == PREPARED || row.state == ACTIVE)
        && (row.state == ACTIVE && pollNow > pins.owner.start + 30000 ==> ListedOnce(reading.subs, knownId))
      ensures t == Ok(Again) ==> log == [] && Since(now, 0)
      ensures t == Ok(Again) ==> now == old(now) + PollSleep(old(now)) + script(old(step)).overshoot
      ensures log != [] <==> AtLimit(row, pollNow, reading) && ListedOnce(reading.subs, knownId)
      ensures t == Ok(Leave("OWNER_STOPPED")) <==>
        row.state == STOPPED && (knownId == None || Sub(knownId.value, true) !in reading.subs)
      ensures AtLimit(row, pollNow, reading) ==> t == LimitEnd(reading)
      ensures t.Ok? && t != Ok(Again) && t != Ok(Leave("OWNER_STOPPED")) ==> AtLimit(row, pollNow, reading)
      ensures deleteVerified == (old(deleteVerified) || (t.Ok? && log != []))
    {
      hide Sound, Timely, Since;
      if knownId.Some? { MatchesCounts(reading.subs, knownId.value); }
      var exact := if knownId.Some? then Matches(reading.subs, knownId.value) else 0;
      if row.state.FAILED? { return Thrown(Hold("OWNER_MARKED_FAILED")); }
      if row.state.STOPPED? {
        if exact != 0 { return Thrown(Hold("STOPPED_OWNER_STILL_ACTIVE")); }
        return Ok(Leave("OWNER_STOPPED"));
      }
      if pollNow >= pins.owner.stop || reading.charge >= EARLY_STOP {
        t := OnLimit(reading);
        return;
      }
      if row.state.ACTIVE? && exact != 1 && pollNow > pins.owner.start + 30000 {
        return Thrown(Hold("ACTIVE_OWNER_NOT_PRESENT_IN_PROVIDER_LIST"));
      }
      t := Pause(pollNow);
      AtHead(now);
    }

    /** The ways a complete reading ends the watch. */
    predicate ReadingEnds(row: Row, pollNow: int, reading: Reading, since: Option<int>, t: Try<PollEnd>)
      reads this`log, this`knownId
    {
      var calm := Calm(reading, pollNow, knownId, since);
      && (t == Ok(Leave("OWNER_STOPPED")) <==>
            calm && row.state == STOPPED && (knownId == None || Sub(knownId.value, true) !in reading.subs))
      && (calm && AtLimit(row, pollNow, reading) ==> t == LimitEnd(reading))
      && (t.Ok? && t != Ok(Again) && t != Ok(Leave("OWNER_STOPPED")) ==> calm && AtLimit(row, pollNow, reading))
    }

    /** Everything a poll does with a complete reading. */
    method Judge(row: Row, pollNow: int, reading: Reading) returns (t: Try<PollEnd>)
      requires Sound() && log == [] && firstFault.None? && Behind(Lag() - 6 * latency)
      requires 0 <= reading.charge < EARLY_STOP ==> Behind(2 * latency)
      modifies this`step, this`now, this`log, this`deleteVerified, this`unownedSince
      ensures Sound() && Onward() && Behind(Lag() - 6 * latency)
      ensures t == Ok(Again) <==> ReadingHealthy(pins, row, pollNow, reading, knownId, old(unownedSince))
      ensures t == Ok(Again) ==> log == [] && Since(now, 0)
      ensures t == Ok(Again) ==> now == old(now) + PollSleep(old(now)) + script(old(step)).overshoot
      ensures log != [] <==> ReadingDeletes(pins, row, pollNow, reading, knownId)
      ensures ReadingEnds(row, pollNow, reading, old(unownedSince), t)
      ensures deleteVerified == (old(deleteVerified) || (t.Ok? && log != []))
      ensures t.Ok? ==> !t.value.ReturnNow?
      ensures t != Ok(Leave("NO_CREATE"))
    {
      hide Sound, Timely, Since, SomeoneElseActive, ListedOnce, NobodyActive;
      if reading.charge < 0 { return Thrown(Hold("BILLING_COUNTER_INVALID_OR_REFILLED")); }
      var e := CheckForeign(reading.subs, pollNow);
      if e.Some? { return Thrown(e.value); }
      t := JudgeState(row, pollNow, reading);
    }

    /** The restart check that opens a poll: `Ok(Again)` when the poll goes on. */
    method CheckEpoch(pollNow: int) returns (t: Try<PollEnd>)
      requires Sound() && log == [] && Since(pollNow, 0)
      modifies this`step, this`now, this`log, this`epoch, this`deleteVerified
      ensures Sound() && Onward() && Behind(Lag() - 6 * latency)
      ensures t == Ok(Again) ==> log == [] && Since(pollNow, 1)
      ensures t == Ok(Again) <==>
        (var r := script(old(step));
         r.databaseUp && (r.epoch == old(epoch) || (knownId.None? && pollNow < pins.owner.start)))
      ensures log != [] <==> script(old(step)).databaseUp && script(old(step)).epoch != old(epoch) && knownId.Some?
      ensures t == Ok(Again) ==>
          step == old(step) + 1 && now == old(now) + Took(old(step)) && epoch == script(old(step)).epoch
      ensures t.Ok? && t != Ok(Again) ==> t == Ok(Leave("POSTMASTER_RESET_EXACT_STOP_SCIENCE_INCOMPLETE"))
      ensures t.Ok? && t != Ok(Again) <==> log != [] && log[0].verified
      ensures deleteVerified == old(deleteVerified)
    {
      hide Sound, Timely, InTime, VerifiedIn;
      AtHead(pollNow);
      var r, _ := Call();
      if !r.databaseUp { return Thrown(Database); }
      if r.epoch != epoch {
        if knownId.None? && pollNow < pins.owner.start {
          epoch := r.epoch;
        } else if knownId.Some? {
          var d := DeleteOrHold("POSTMASTER_RESET_OWNED_DELETE_UNCONFIRMED", false);
          if d.Thrown? { return d; }
          return Ok(Leave("POSTMASTER_RESET_EXACT_STOP_SCIENCE_INCOMPLETE"));
        }
        if pollNow >= pins.owner.start { return Thrown(Hold("POSTMASTER_RESET_BEFORE_EXACT_PAID_BIND")); }
      }
      return Ok(Again);
    }

    /** The database did not restart, or before the start with no id known; and the row is the owner's. */
    predicate RowReadable()
      reads this`step, this`now, this`knownId, this`epoch
    {
      var r := script(step);
      && r.databaseUp && (r.epoch == epoch || (knownId == None && now < pins.owner.start))
      && script(step + 1).databaseUp && RowAccepted(script(step + 1).rows, pins, knownId)
    }

    /** The id after the row was read. */
    function IdRead(): Option<SubId>
      requires |script(step + 1).rows| == 1
      reads this`step, this`knownId
    {
      var id := script(step + 1).rows[0].providerId;
      if id == None then knownId else id
    }

    /** The fault of two free reads, if any, and when it was seen. */
    function FreeFault(from: nat): Option<Fault> {
      if script(from).fault != None then script(from).fault else script(from + 1).fault
    }

    function FaultSeenAt(from: nat, at: int): int {
      at + Took(from) + if script(from).fault != None then 0 else Took(from + 1)
    }

    function FreeReading(from: nat, at: int): Reading {
      Reading(charged(at + script(from).before), script(from + 1).subs)
    }

    predicate AccountGoesOn(from: nat, at: int, row: Row, pollNow: int, known: Option<SubId>)
      reads this`firstFault, this`unownedSince
    {
      var since := if firstFault == None then at else firstFault.value;
      if FreeFault(from) != None then
        FaultTolerated(pins, FreeFault(from).value, known != None, row.state ==
          PREPARED, pollNow, FaultSeenAt(from, at), since)
      else ReadingHealthy(pins, row, pollNow, FreeReading(from, at), known, unownedSince)
    }

    predicate AccountDeletes(from: nat, at: int, row: Row, pollNow: int, known: Option<SubId>)
      reads this`firstFault
    {
      var since := if firstFault == None then at else firstFault.value;
      if FreeFault(from) != None then
        FaultDeletes(pins, FreeFault(from).value, known != None, FaultSeenAt(from, at), since)
      else ReadingDeletes(pins, row, pollNow, FreeReading(from, at), known)
    }

    /** The ways a poll ends the watch once the row is read: by a verified delete during a fault, or by its reading. */
    predicate AccountEnds(from: nat, at: int, row: Row, pollNow: int, since: Option<int>, t: Try<PollEnd>)
      reads this`log, this`knownId
    {
      if FreeFault(from) != None then t.Ok? && t != Ok(Again) <==> t == Ok(ReturnNow) && log != [] && log[0].verified
      else ReadingEnds(row, pollNow, FreeReading(from, at), since, t)
    }

    /** Exactly when a turn of the loop leads to the next one, in terms of its four answers. */
    predicate GoesOn()
      reads this`step, this`now, this`knownId, this`epoch, this`firstFault, this`unownedSince
    {
      && RowReadable()
      && AccountGoesOn(step + 2, now + Took(step) + Took(step + 1), script(step + 1).rows[0], now, IdRead())
    }

    /** Exactly when a turn of the loop issues a delete. */
    predicate Deletes()
      reads this`step, this`now, this`knownId, this`epoch, this`firstFault
    {
      || (script(step).databaseUp && script(step).epoch != epoch && knownId != None)
      || (RowReadable() &&
          AccountDeletes(step + 2, now + Took(step) + Took(step + 1), script(step + 1).rows[0], now, IdRead()))
    }

    /** One turn of the loop. */
    method Poll() returns (t: Try<PollEnd>)
      requires Sound() && log == [] && Since(now, 0)
      modifies this`step, this`now, this`knownId, this`seenAt, this`log, this`firstFault, this`lastGood
      modifies this`deleteVerified, this`unownedSince, this`epoch
      ensures Sound() && Onward() && Behind(Lag() - 6 * latency)
      ensures t == Ok(Again) ==> log == [] && now >= old(now) + 250 && Since(now, 0)
      ensures t == Ok(Again) <==> old(GoesOn())
      ensures log != [] <==> old(Deletes())
      ensures if old(RowReadable()) then
                AccountEnds(old(step) + 2, old(now + Took(step) + Took(step + 1)),
                  script(old(step) + 1).rows[0], old(now), old(unownedSince), t)
              else t.Ok? <==> log != [] && log[0].verified
      ensures t == Ok(ReturnNow) ==> deleteVerified
      ensures t != Ok(Leave("NO_CREATE"))
    {
      hide Sound, Timely, InTime, AccountGoesOn, AccountDeletes, AccountEnds;
      var pollNow := now;
      var checked := CheckEpoch(pollNow);
      if checked != Ok(Again) { return checked; }
      var owner := ReadOwner();
      StillBehind(pollNow, 2);
      if owner.Thrown? { return Thrown(owner.error); }
      t := ReadAccount(owner.value, pollNow);
    }

    /** The free reads of a poll, and what is made of them. */
    method ReadAccount(row: Row, pollNow: int) returns (t: Try<PollEnd>)
      requires Sound() && log == [] && Since(pollNow, 2)
      modifies this`step, this`now, this`log, this`firstFault, this`lastGood, this`deleteVerified, this`unownedSince
      ensures Sound() && Onward() && Behind(Lag() - 6 * latency)
      ensures t == Ok(Again) ==> log == [] && now >= old(now) + 250 && Since(now, 0)
      ensures t == Ok(ReturnNow) ==> deleteVerified
      ensures AccountEnds(old(step), old(now), row, pollNow, old(unownedSince), t)
      ensures t == Ok(Again) <==> old(AccountGoesOn(step, now, row, pollNow, knownId))
      ensures log != [] <==> old(AccountDeletes(step, now, row, pollNow, knownId))
      ensures t != Ok(Leave("NO_CREATE"))
    {
      hide Sound, Timely, InTime, FaultTolerated, FaultDeletes, ReadingHealthy, ReadingDeletes, ReadingEnds;
      var cycleStart := now;
      var reading := ReadFree(pollNow);
      if reading.Ok? {
        t := Judge(row, pollNow, reading.value);
      } else {
        t := OnTelemetryFault(reading.error.fault, pollNow, cycleStart, row);
      }
    }

    // ----------------------------------------------------------------
    // The whole watch
    // ----------------------------------------------------------------

    /** Nothing charged, at least twelve request units, nothing active, and the receipt posted. */
    ghost predicate AccountArmed(from: nat, at: int) {
      && script(from).fault.None? && script(from).apiUnits >= 12 && charged(at + script(from).before) == 0
      && script(from + 1).fault.None? && NobodyActive(script(from + 1).subs) && script(from + 2).accepted
    }

    /** The free account checks before the ARMED receipt, and the receipt itself. */
    method ArmAccount() returns (e: Option<Error>)
      requires Sound() && log == [] && firstFault.None? && Behind(Lag() - 5 * latency)
      modifies this`step, this`now, this`lastGood
      ensures Sound() && log == [] && Behind(Lag() - 4 * latency)
      ensures e.None? ==> Since(now, 0)
      ensures e.None? <==> AccountArmed(old(step), old(now))
      ensures step >= old(step)
    {
      hide Sound, Timely;
      var b, sampledAt := Call();
      if b.fault.Some? { return Some(Provider(b.fault.value)); }
      if charged(sampledAt) != 0 || b.apiUnits < 12 { return Some(Hold("STARTING_BUDGET_CHANGED")); }
      Date(sampledAt);
      var l, _ := Call();
      if l.fault.Some? { return Some(Provider(l.fault.value)); }
      if AnyActive(l.subs) { return Some(Hold("FOREIGN_SUBSCRIPTION_BEFORE_START")); }
      var p, _ := Call();
      return if p.accepted then None else Some(Hold("ARMED_PROOF_NOT_POSTED"));
    }

    /** `calls` calls and the health pauses after the admission. */
    ghost predicate Preparing(calls: nat, pauses: int)
      reads this
    {
      lastGood.None? && Behind(MINUTE + pauses + calls * latency)
    }

    /** The pauses before the given attempt. */
    ghost function Waited(attempt: nat): int {
      if attempt <= 1 then 0 else Waited(attempt - 1) + (if attempt == 2 then FIRST_PAUSE else NEXT_PAUSE) + jitter
    }

    lemma AllPauses(attempt: nat)
      requires attempt <= HEALTH_READS
      ensures Waited(attempt) <= Waited(HEALTH_READS) == FIRST_PAUSE + 4 * NEXT_PAUSE + 5 * jitter
    {
      assert Waited(2) == FIRST_PAUSE + jitter;
      assert Waited(4) == Waited(2) + 2 * NEXT_PAUSE + 2 * jitter;
      assert Waited(6) == Waited(4) + 2 * NEXT_PAUSE + 2 * jitter;
    }

    lemma NothingWaited()
      ensures Waited(1) == 0
    { }

    /** One more read. */
    method ReadHealthOnce(attempt: nat) returns (h: Health)
      requires 1 <= attempt <= HEALTH_READS && Sound() && log == [] && Preparing(attempt, Waited(attempt))
      modifies this`step, this`now
      ensures Sound() && old(now) <= now && Preparing(attempt + 1, Waited(attempt)) && step == old(step) + 1
      ensures h == script(old(step)).health
    {
      hide Sound, Timely, Waited;
      var r, _ := Call();
      return r.health;
    }

    method PauseHealth(attempt: nat)
      requires 1 <= attempt && Sound() && log == [] && Preparing(attempt + 1, Waited(attempt))
      modifies this`step, this`now
      ensures Sound() && old(now) <= now && Preparing(attempt + 1, Waited(attempt + 1)) && step == old(step) + 1
    {
      hide Sound, Timely;
      Sleep(if attempt == 1 then FIRST_PAUSE else NEXT_PAUSE);
    }

    /** readGate05PublishedReceiverHealthV39: only transport faults and 5xx answers are read again. */
    method ReadHealth() returns (e: Option<Error>)
      requires Sound() && log == [] && Preparing(1, 0)
      modifies this`step, this`now
      ensures Sound() && old(now) <= now && Preparing(7, Waited(HEALTH_READS))
      ensures e.None? <==> HealthVerified(script, old(step))
      ensures step >= old(step)
    {
      hide Sound, Timely, Waited, HealthVerified;
      ghost var from := step;
      var attempt := 1;
      NothingWaited();
      while true
        invariant 1 <= attempt <= HEALTH_READS && Sound() && old(now) <= now && step == from + 2 * (attempt - 1)
        invariant Preparing(attempt, Waited(attempt)) && UnreachableBefore(script, from, attempt - 1)
        decreases HEALTH_READS - attempt
      {
        var h := ReadHealthOnce(attempt);
        AllPauses(attempt);
        if h.Verified? { WasVerified(from, attempt - 1); return None; }
        if h.Refused? || attempt == HEALTH_READS {
          NotVerified(from, attempt - 1);
          return Some(Hold("GATE05_PUBLISHED_RECEIVER"));
        }
        PauseHealth(attempt);
        attempt := attempt + 1;
      }
    }

    lemma WasVerified(from: nat, k: nat)
      requires UnreachableBefore(script, from, k) && script(from + 2 * k).health.Verified? && k < HEALTH_READS
      ensures HealthVerified(script, from)
    {
      assert VerifiedAt(script, from, k);
    }

    /** A refused read, or a sixth one that is not verified, leaves none. */
    lemma NotVerified(from: nat, k: nat)
      requires UnreachableBefore(script, from, k) && !script(from + 2 * k).health.Verified?
      requires k < HEALTH_READS && (k == HEALTH_READS - 1 || script(from + 2 * k).health.Refused?)
      ensures !HealthVerified(script, from)
    {
      forall i: nat | i < HEALTH_READS ensures !VerifiedAt(script, from, i) {
        if i < k { assert script(from + 2 * i).health.Unreachable?; }
      }
    }

    /** Between the admission and the reading of the row: the commit, the receiver's health, the connection. */
    method Prepare() returns (e: Option<Error>)
      requires Sound() && log == [] && lastGood.None? && now - pins.owner.start <= MINUTE
      modifies this`step, this`now
      ensures Sound() && old(now) <= now && step > old(step) && Preparing(8, FIRST_PAUSE + 4 * NEXT_PAUSE + 5 * jitter)
      ensures e.None? <==>
        script(old(step)).accepted && HealthVerified(script, old(step) + 1) && script(step - 1).databaseUp
    {
      var head, _ := Call();
      if !head.accepted { return Some(Hold("SOURCE_HEAD")); }
      e := ReadHealth();
      if e.Some? { return; }
      var c, _ := Call();
      return if c.databaseUp then None else Some(Database);
    }

    /** A read-only role, a PREPARED row without an id, a readable restart time, and an account that allows it. */
    ghost predicate Armed(from: nat, at: int) {
      var rows := script(from + 1).rows;
      && script(from).databaseUp && script(from).accepted && script(from + 1).databaseUp && script(from + 2).databaseUp
      && RowAccepted(rows, pins, None) && rows[0].state == PREPARED && rows[0].providerId == None
      && AccountArmed(from + 3, at + Took(from) + Took(from + 1) + Took(from + 2))
    }

    /** The rest of the way to the loop, inside the try block: None when the watch is armed. */
    method Arm() returns (e: Option<Error>)
      requires Sound() && log == [] && knownId.None? && firstFault.None?
      requires Preparing(8, FIRST_PAUSE + 4 * NEXT_PAUSE + 5 * jitter)
      modifies this`step, this`now, this`knownId, this`seenAt, this`epoch, this`lastGood
      ensures Sound() && log == [] && Behind(Lag() - 4 * latency)
      ensures e.None? ==> knownId.None? && Since(now, 0)
      ensures e.None? <==> Armed(old(step), old(now))
      ensures e.None? ==> epoch == script(old(step) + 2).epoch
      ensures step >= old(step)
    {
      hide Sound, Timely, AccountArmed, AnyActive;
      if Timely() { LittleJitter(); }
      var role, _ := Call();
      if !role.databaseUp { return Some(Database); }
      if !role.accepted { return Some(Hold("DATABASE_NOT_SELECT_ONLY")); }
      var owner := ReadOwner();
      if owner.Thrown? { return Some(owner.error); }
      if !owner.value.state.PREPARED? || owner.value.providerId.Some? { return Some(Hold("OWNER_ALREADY_STARTED")); }
      var r, _ := Call();
      if !r.databaseUp { return Some(Database); }
      epoch := r.epoch;
      e := ArmAccount();
    }

    method Loop() returns (t: Try<PollEnd>)
      requires Sound() && log == [] && Since(now, 0)
      modifies this`step, this`now, this`knownId, this`seenAt, this`log, this`firstFault, this`lastGood
      modifies this`deleteVerified, this`unownedSince, this`epoch
      ensures Sound() && Onward() && Behind(Lag() - 6 * latency)
      ensures t.Ok? ==> !t.value.Again?
      ensures t == Ok(ReturnNow) ==> deleteVerified
      ensures t == Ok(Leave("NO_CREATE")) ==> now >= pins.owner.stop + 240000
      ensures old(now) >= pins.owner.stop + 240000 ==> t == Ok(Leave("NO_CREATE")) && step == old(step)
    {
      StillBehind(now, 0);
      while now < pins.owner.stop + 4 * MINUTE
        invariant Sound() && Onward() && log == [] && Since(now, 0) && Behind(Lag() - 6 * latency)
        invariant old(now) >= pins.owner.stop + 4 * MINUTE ==> now == old(now) && step == old(step)
        decreases pins.owner.stop + 4 * MINUTE - now
      {
        t := Poll();
        if t != Ok(Again) { return; }
        StillBehind(now, 0);
      }
      return Ok(Leave("NO_CREATE"));
    }

    /** After the loop: the last list must not show the owned subscription active. */
    method Close() returns (e: Option<Error>)
      requires Sound() && Behind(Lag() - 6 * latency)
      modifies this`step, this`now, this`finalList
      ensures Sound() && Behind(Lag() - 4 * latency)
      ensures e.None? <==>
        && script(old(step)).fault.None? && script(old(step) + 1).fault.None?
        && (knownId != None ==> Sub(knownId.value, true) !in script(old(step)).subs)
      ensures e.None? ==> finalList == Some(script(old(step)).subs)
      ensures step >= old(step)
    {
      hide Sound, Timely;
      var l, _ := Call();
      if l.fault.Some? { return Some(Provider(l.fault.value)); }
      finalList := Some(l.subs);
      if knownId.Some? && ActiveIn(l.subs, knownId.value) {
        return Some(Hold("STOP_UNCONFIRMED_PROVIDER_STILL_ACTIVE"));
      }
      var b, _ := Call();
      return if b.fault.Some? then Some(Provider(b.fault.value)) else None;
    }

    /** The re-read owner row spoke against the pins or the remembered id. */
    ghost predicate Refuted()
      reads this
    {
      conflict && knownId.Some? && script(rereadAt).databaseUp && !RowConfirms(script(rereadAt).rows, pins, knownId)
    }

    lemma ContradictsMeans(rows: seq<Row>, id: SubId)
      ensures Contradicts(rows, pins, id) <==> !RowConfirms(rows, pins, Some(id))
    { }

    /** The catch block. */
    method Emergency(e: Error) returns (end: Outcome)
      requires Sound() && Behind(Lag() - 4 * latency) && !attempted && !conflict
      modifies this`step, this`now, this`log, this`attempted, this`conflict, this`rereadAt
      ensures Sound() && (attempted ==> log != [] && |log| > |old(log)|)
      ensures Behind(Lag())
      ensures end.Returned? ==> VerifiedIn(log)
      ensures attempted <==>
        && knownId != None && !deleteVerified
        && (script(old(step)).databaseUp ==> RowConfirms(script(old(step)).rows, pins, knownId))
      ensures |log| == |old(log)| + if attempted then 1 else 0
      ensures end.Returned? <==>
        e.Provider? && e.fault.transient && (deleteVerified || (attempted && log[|log| - 1].verified))
      ensures end.Threw? ==> end.error == e && (knownId.Some? ==> deleteVerified || attempted || Refuted())
      ensures step >= old(step)
    {
      hide Sound, Timely, VerifiedIn, Contradicts, RowConfirms;
      DeletesAreOwned();
      var verified := deleteVerified;
      if knownId.Some? && !deleteVerified {
        var r, _ := Call();
        conflict := r.databaseUp && Contradicts(r.rows, pins, knownId.value);
        rereadAt := step - 1;
        ContradictsMeans(r.rows, knownId.value);
        if !conflict {
          attempted := true;
          verified := DeleteKnown();
        }
      }
      return if verified && e.Provider? && e.fault.transient then Returned else Threw(e);
    }

    /**
     An hour, entered from ten minutes before to one minute after its start, thirty
     seconds before its stop at the latest.
     */
    predicate InWindow(at: int) {
      && pins.owner.stop - pins.owner.start == 3600000
      && pins.owner.start - 600000 <= at <= pins.owner.start + 60000 && at <= pins.owner.stop - 30000
    }

    /**
     runGate05ScienceStopV39 after its pins are parsed. Nothing owned is
     silently abandoned, only the one authenticated id is ever deleted, and
     the first delete is issued, or the watch ends without one, at most `Lag`
     after the last instant the charge was known to be under the threshold.
     */
    method Watch() returns (end: Outcome)
      requires Sound() && log == [] && knownId.None? && firstFault.None? && lastGood.None?
      requires finalList.None? && !attempted && !conflict
      modifies this
      ensures Sound()
      ensures knownId.None? ==> log == []
      ensures end.Returned? && knownId.Some? ==>
        VerifiedIn(log) || (finalList.Some? && Sub(knownId.value, true) !in finalList.value)
      ensures end.Threw? && knownId.Some? ==> deleteVerified || attempted || Refuted()
      ensures attempted ==> log != []
      ensures InWindow(old(now)) ==> Behind(Lag())
      ensures !InWindow(old(now)) ==> end == Threw(Hold("BAD_WINDOW"))
      ensures step == old(step) <==> !InWindow(old(now))
    {
      hide Sound, Timely, Since, VerifiedIn, Refuted, Armed, HealthVerified, RowConfirms;
      DeletesAreOwned();
      if !Admitted(pins.owner.start, pins.owner.stop, now) { return Threw(Hold("BAD_WINDOW")); }
      if Timely() { LittleJitter(); }
      var e := Prepare();
      if e.Some? { return Threw(e.value); }
      e := Arm();
      if e.None? {
        var t := Loop();
        DeletesAreOwned();
        if t == Ok(ReturnNow) { return Returned; }
        if t.Ok? {
          e := Close();
          DeletesAreOwned();
          if e.None? { return Returned; }
        } else {
          e := Some(t.error);
        }
      }
      end := Emergency(e.value);
      DeletesAreOwned();
    }
  }

  // ------------------------------------------------------------------
  // What the watch may cost
  // ------------------------------------------------------------------

  /** The provider charges nothing before the start and at most `rate` credits a millisecond afterwards. */
  ghost predicate ChargesAtMost(charged: int -> int, rate: real, start: int) {
    && rate >= 0.0
    && (forall t :: t <= start ==> charged(t) <= 0)
    && (forall s, t :: s <= t ==> charged(t) as real - charged(s) as real <= rate * (t - s) as real)
  }

  lemma SpendBetween(charged: int -> int, rate: real, start: int, from: int, at: int, lag: int)
    requires ChargesAtMost(charged, rate, start) && from <= at <= from + lag
    ensures charged(at) as real <= charged(from) as real + rate * lag as real
  {
    assert charged(at) as real - charged(from) as real <= rate * (at - from) as real;
    Scale(rate, (at - from) as real, lag as real);
  }

  /** When the first delete is issued the spend is under the threshold plus what the lag can add. */
  lemma SpendAtFirstDelete(w: Watcher, rate: real)
    requires w.Sound() && w.Timely() && w.log != []
    requires ChargesAtMost(w.charged, rate, w.pins.owner.start)
    ensures w.charged(w.log[0].at) as real < EARLY_STOP as real + rate * w.Lag() as real
  {
    var from, at := w.Anchor(), w.log[0].at;
    assert w.charged(from) < EARLY_STOP;
    if from <= at {
      SpendBetween(w.charged, rate, w.pins.owner.start, from, at, w.Lag());
    } else {
      Scale(rate, 0.0, w.Lag() as real);
    }
  }

  /** A watch that ends without a delete has seen the spend under the same bound. */
  lemma SpendWithoutDelete(w: Watcher, rate: real)
    requires w.Sound() && w.Timely() && w.log == [] && w.Behind(w.Lag())
    requires ChargesAtMost(w.charged, rate, w.pins.owner.start)
    ensures w.charged(w.now) as real < EARLY_STOP as real + rate * w.Lag() as real
  {
    var from, at := w.Anchor(), w.now;
    assert w.charged(from) < EARLY_STOP;
    if from <= at {
      SpendBetween(w.charged, rate, w.pins.owner.start, from, at, w.Lag());
    } else {
      Scale(rate, 0.0, w.Lag() as real);
    }
  }

  lemma Scale(rate: real, x: real, y: real)
    requires rate >= 0.0 && x <= y
    ensures rate * x <= rate * y
  { }

  /**
   The real spend bound: if the lag and the delete itself together can cost no
   more than the reserve of 150, the spend stays under 500 until the provider
   has carried the delete out.
   */
  lemma ReserveSuffices(w: Watcher, rate: real, carriedOut: int)
    requires w.Sound() && w.Timely() && w.log != [] && w.log[0].at <= carriedOut
    requires ChargesAtMost(w.charged, rate, w.pins.owner.start)
    requires rate * (w.Lag() + carriedOut - w.log[0].at) as real <= 150.0
    ensures w.charged(carriedOut) < 500
  {
    SpendAtFirstDelete(w, rate);
    hide *;
    var at, lag := w.log[0].at, w.Lag();
    var before, after, more := w.charged(at) as real, w.charged(carriedOut) as real, (carriedOut - at) as real;
    assert after - before <= rate * more by { Charged(w, rate, at, carriedOut); }
    assert (lag + carriedOut - at) as real == lag as real + more;
    AddReserve(rate, lag as real, more, before, after);
  }

  lemma Charged(w: Watcher, rate: real, s: int, t: int)
    requires ChargesAtMost(w.charged, rate, w.pins.owner.start) && s <= t
    ensures w.charged(t) as real - w.charged(s) as real <= rate * (t - s) as real
  { }

  lemma AddReserve(rate: real, lag: real, more: real, before: real, after: real)
    requires before < 350.0 + rate * lag && after - before <= rate * more && rate * (lag + more) <= 150.0
    ensures after < 500.0
  {
    Split(rate, lag, more);
  }

  lemma Split(rate: real, x: real, y: real)
    ensures rate * (x + y) == rate * x + rate * y
  { }
}
