/** The probe budget ledger: reservations under a lock, completions, failures and operator cleanup. */
module ProbeLedger {
  import opened Common

  datatype Status = Probing | Completed | Failed | Abandoned

  /** A row; `estimate` is what was first reserved and `running` that its run has yet to report. */
  datatype Probe = Probe(day: string, status: Status, reserved: int, settled: Option<int>, internalSend: Option<int>,
                         estimate: int, running: bool)

  function OrZero(x: Option<int>): int { if x.None? then 0 else x.value }

  // ------------------------------------------------------------------
  // The three sums
  // ------------------------------------------------------------------

  /** cumulativeProbeExposure, one row. */
  function ReducerCharge(p: Probe): int { Max(p.reserved, Max(0, Max(OrZero(p.settled), OrZero(p.internalSend)))) }

  /** The GREATEST of probeBudgetDaySettledSpend, one row. */
  function SqlCharge(p: Probe): int { Max(p.reserved, Max(OrZero(p.settled), OrZero(p.internalSend))) }

  /** The GREATEST the reservation itself adds up: settled credits are not in it. */
  function LockedCharge(p: Probe): int { Max(p.reserved, OrZero(p.internalSend)) }

  /** c is the largest of these, an amount not recorded counting as nothing. */
  predicate Largest(c: int, amounts: set<Option<int>>) {
    (exists x :: x in amounts && c == if x == None then 0 else x.value) &&
    (forall x :: x in amounts ==> c >= if x == None then 0 else x.value)
  }

  /** The charges of a row: only the reducer stays at or above zero, only the reservation skips settled credits. */
  lemma ChargesMean(p: Probe)
    ensures Largest(ReducerCharge(p), {Some(0), Some(p.reserved), p.settled, p.internalSend})
    ensures Largest(SqlCharge(p), {Some(p.reserved), p.settled, p.internalSend})
    ensures Largest(LockedCharge(p), {Some(p.reserved), p.internalSend})
  {
    var all := {Some(0), Some(p.reserved), p.settled, p.internalSend};
    assert Some(0) in all && Some(p.reserved) in all && p.settled in all && p.internalSend in all;
  }

  function CumulativeExposure(rows: seq<Probe>): int {
    if rows == [] then 0 else ReducerCharge(rows[0]) + CumulativeExposure(rows[1..])
  }

  function SqlSum(rows: seq<Probe>): int {
    if rows == [] then 0 else SqlCharge(rows[0]) + SqlSum(rows[1..])
  }

  predicate SomethingNonNegative(p: Probe) { p.reserved >= 0 || OrZero(p.settled) >= 0 || OrZero(p.internalSend) >= 0 }

  /** The reducer and the SQL sum agree exactly when no row is negative in all three columns. */
  lemma {:induction false} ReducerIsSqlSum(rows: seq<Probe>)
    ensures CumulativeExposure(rows) >= SqlSum(rows)
    ensures CumulativeExposure(rows) == SqlSum(rows) <==> forall p :: p in rows ==> SomethingNonNegative(p)
  {
    if rows != [] {
      ReducerIsSqlSum(rows[1..]);
      assert ReducerCharge(rows[0]) >= SqlCharge(rows[0]);
      assert ReducerCharge(rows[0]) == SqlCharge(rows[0]) <==> SomethingNonNegative(rows[0]);
      assert forall p :: p in rows <==> p == rows[0] || p in rows[1..];
    }
  }

  /** The locked sum over one budget day. */
  function Exposure(rows: seq<Probe>, day: string): int {
    if rows == [] then 0 else (if rows[0].day == day then LockedCharge(rows[0]) else 0) + Exposure(rows[1..], day)
  }

  /** How far the windows of one budget day went beyond what was reserved for them. */
  function Overshoot(rows: seq<Probe>, day: string): int {
    if rows == [] then 0
    else
      (if rows[0].day == day then Max(0, LockedCharge(rows[0]) - rows[0].estimate) else 0) + Overshoot(rows[1..], day)
  }

  lemma {:induction false} ReplacedRow(rows: seq<Probe>, i: nat, p: Probe, day: string)
    requires i < |rows| && p.day == rows[i].day
    ensures Exposure(rows[i := p], day) == Exposure(rows, day) +
            (if p.day == day then LockedCharge(p) - LockedCharge(rows[i]) else 0)
    ensures Overshoot(rows[i := p], day) == Overshoot(rows, day) +
            (if p.day == day
             then Max(0, LockedCharge(p) - p.estimate) - Max(0, LockedCharge(rows[i]) - rows[i].estimate) else 0)
  {
    if i > 0 {
      ReplacedRow(rows[1..], i - 1, p, day);
      assert rows[i := p][1..] == rows[1..][i - 1 := p];
    } else {
      assert rows[0 := p][1..] == rows[1..];
    }
  }

  lemma {:induction false} AddedRow(rows: seq<Probe>, p: Probe, day: string)
    ensures Exposure(rows + [p], day) == Exposure(rows, day) + (if p.day == day then LockedCharge(p) else 0)
    ensures Overshoot(rows + [p], day) ==
        Overshoot(rows, day) + (if p.day == day then Max(0, LockedCharge(p) - p.estimate) else 0)
  {
    if rows != [] {
      AddedRow(rows[1..], p, day);
      assert (rows + [p])[1..] == rows[1..] + [p];
    } else {
      assert ([p])[1..] == [];
    }
  }

  lemma {:induction false} OvershootNonNegative(rows: seq<Probe>, day: string)
    ensures Overshoot(rows, day) >= 0
  {
    if rows != [] { OvershootNonNegative(rows[1..], day); }
  }

  // ------------------------------------------------------------------
  // The table
  // ------------------------------------------------------------------

  /** A running window is charged what was reserved for it, and nothing is recorded as settled here. */
  predicate RowOk(p: Probe) {
    p.settled.None? && p.estimate > 0 && (p.running ==> p.reserved == p.estimate && p.internalSend.None?)
  }

  ghost predicate TableOk(rows: seq<Probe>, cap: int) {
    && (forall i :: 0 <= i < |rows| ==> RowOk(rows[i]))
    && (forall day :: Exposure(rows, day) <= cap + Overshoot(rows, day))
  }

  lemma ReservationKeeps(rows: seq<Probe>, day: string, estimate: int, cap: int)
    requires TableOk(rows, cap) && estimate > 0 && Exposure(rows, day) + estimate <= cap
    ensures TableOk(rows + [Reserved(day, estimate)], cap)
    ensures Exposure(rows + [Reserved(day, estimate)], day) <= cap
  {
    var p := Reserved(day, estimate);
    forall d ensures Exposure(rows + [p], d) <= cap + Overshoot(rows + [p], d) {
      AddedRow(rows, p, d);
      OvershootNonNegative(rows, d);
    }
    AddedRow(rows, p, day);
  }

  /** A running row may give way to any charge, another row only to the same one. */
  lemma ReplacementKeeps(rows: seq<Probe>, id: nat, p: Probe, cap: int)
    requires TableOk(rows, cap) && id < |rows| && RowOk(p) && p.day == rows[id].day && p.estimate == rows[id].estimate
    requires rows[id].running || LockedCharge(p) == LockedCharge(rows[id])
    ensures TableOk(rows[id := p], cap)
    ensures LockedCharge(p) == LockedCharge(rows[id]) ==>
              forall day :: Exposure(rows[id := p], day) == Exposure(rows, day)
  {
    var next := rows[id := p];
    assert RowOk(rows[id]);
    forall day ensures Exposure(next, day) <= cap + Overshoot(next, day) { ReplacedRow(rows, id, p, day); }
    forall day | LockedCharge(p) == LockedCharge(rows[id]) ensures Exposure(next, day) == Exposure(rows, day) {
      ReplacedRow(rows, id, p, day);
    }
  }

  // What each statement leaves in the table.

  function Reserved(day: string, estimate: int): Probe { Probe(day, Probing, estimate, None, None, estimate, true) }

  function CompletedWith(p: Probe, sent: nat): Probe {
    p.(status := Completed, reserved := sent, internalSend := Some(sent), running := false)
  }

  function FailedWith(p: Probe, sent: Option<nat>): Probe {
    p.(status := Failed, internalSend := sent, running := false)
  }

  function CleanedUp(p: Probe, cleaned: bool): Probe { p.(status := if cleaned then Abandoned else Failed) }

  /** The rows spelt out: what each statement writes and what it leaves alone. */
  lemma RowsAfter(p: Probe, day: string, estimate: int, sent: nat, known: Option<nat>)
    ensures Reserved(day, estimate) == Probe(day, Probing, estimate, None, None, estimate, true)
    ensures CompletedWith(p, sent) == Probe(p.day, Completed, sent, p.settled, Some(sent), p.estimate, false)
    ensures FailedWith(p, known) == Probe(p.day, Failed, p.reserved, p.settled, known, p.estimate, false)
    ensures CleanedUp(p, true) == Probe(p.day, Abandoned, p.reserved, p.settled, p.internalSend, p.estimate, p.running)
    ensures CleanedUp(p, false) == Probe(p.day, Failed, p.reserved, p.settled, p.internalSend, p.estimate, p.running)
  { }

  class Ledger {
    const cap: nat
    var rows: seq<Probe>

    ghost predicate Valid()
      reads this
    {
      TableOk(rows, cap)
    }

    constructor (cap: nat)
      ensures Valid() && rows == [] && this.cap == cap
    {
      this.cap, rows := cap, [];
    }

    /** The sum inside reserveProbeAttempt. */
    method Used(day: string) returns (n: int)
      ensures n == Exposure(rows, day)
    {
      n := 0;
      var i := |rows|;
      while i > 0
        invariant 0 <= i <= |rows| && n == Exposure(rows[i..], day)
      {
        i := i - 1;
        assert rows[i..][0] == rows[i] && rows[i..][1..] == rows[i + 1..];
        if rows[i].day == day { n := n + LockedCharge(rows[i]); }
      }
      assert rows[0..] == rows;
    }

    /** reserveProbeAttempt, serialised by the advisory lock: None when the cap refuses it. */
    method Reserve(day: string, estimate: int) returns (probe: Option<nat>)
      requires Valid() && estimate > 0
      modifies this
      ensures Valid()
      ensures probe.Some? <==> Exposure(old(rows), day) + estimate <= cap
      ensures probe.None? ==> rows == old(rows)
      ensures probe.Some? ==> probe.value == |old(rows)|
      ensures probe.Some? ==> rows == old(rows) + [Reserved(day, estimate)]
      ensures probe.Some? ==> Exposure(rows, day) <= cap
    {
      var used := Used(day);
      if used + estimate > cap { return None; }
      ReservationKeeps(rows, day, estimate, cap);
      rows := rows + [Reserved(day, estimate)];
      return Some(|rows| - 1);
    }

    /** The completion update: the reservation gives way to what was really sent. */
    method Complete(id: nat, sent: nat)
      requires Valid() && id < |rows| && rows[id].running
      modifies this
      ensures Valid()
      ensures rows == old(rows)[id := CompletedWith(old(rows)[id], sent)]
      ensures LockedCharge(rows[id]) == sent
    {
      ReplacementKeeps(rows, id, CompletedWith(rows[id], sent), cap);
      rows := rows[id := CompletedWith(rows[id], sent)];
    }

    /** The failure update: the reservation stays charged, and more if more was sent. */
    method Fail(id: nat, sent: Option<nat>)
      requires Valid() && id < |rows| && rows[id].running
      modifies this
      ensures Valid()
      ensures rows == old(rows)[id := FailedWith(old(rows)[id], sent)]
      ensures LockedCharge(rows[id]) == Max(rows[id].estimate, OrZero(sent))
    {
      ReplacementKeeps(rows, id, FailedWith(rows[id], sent), cap);
      rows := rows[id := FailedWith(rows[id], sent)];
    }

    /** Operator cleanup of a probing row, even while its run is still going: credits are untouched. */
    method Abandon(id: nat, cleaned: bool)
      requires Valid() && id < |rows| && rows[id].status.Probing?
      modifies this
      ensures Valid()
      ensures rows == old(rows)[id := CleanedUp(old(rows)[id], cleaned)]
      ensures forall day :: Exposure(rows, day) == Exposure(old(rows), day)
    {
      ReplacementKeeps(rows, id, CleanedUp(rows[id], cleaned), cap);
      rows := rows[id := CleanedUp(rows[id], cleaned)];
    }
  }

  // ------------------------------------------------------------------
  // Whole runs
  // ------------------------------------------------------------------

  datatype Event =
    | Reserving(day: string, estimate: int)
    | Completing(id: nat, sent: nat)
    | Failing(id: nat, known: Option<nat>)
    | Abandoning(id: nat, cleaned: bool)

  /** The programs look at these before they write; a disabled event leaves the table alone. */
  predicate Enabled(rows: seq<Probe>, e: Event, cap: int) {
    match e
    case Reserving(day, estimate) => estimate > 0 && Exposure(rows, day) + estimate <= cap
    case Completing(id, _) => id < |rows| && rows[id].running
    case Failing(id, _) => id < |rows| && rows[id].running
    case Abandoning(id, _) => id < |rows| && rows[id].status.Probing?
  }

  function Apply(rows: seq<Probe>, e: Event, cap: int): seq<Probe> {
    if !Enabled(rows, e, cap) then rows
    else match e
      case Reserving(day, estimate) => rows + [Reserved(day, estimate)]
      case Completing(id, sent) => rows[id := CompletedWith(rows[id], sent)]
      case Failing(id, sent) => rows[id := FailedWith(rows[id], sent)]
      case Abandoning(id, cleaned) => rows[id := CleanedUp(rows[id], cleaned)]
  }

  /** The table after all events, in order, from an empty one. */
  function RunAll(events: seq<Event>, cap: int): seq<Probe> {
    if events == [] then [] else Apply(RunAll(events[..|events| - 1], cap), events[|events| - 1], cap)
  }

  /** Any interleaving of the programs sharing the table, one locked statement at a time. */
  method RunDay(cap: nat, events: seq<Event>) returns (rows: seq<Probe>)
    ensures rows == RunAll(events, cap)
  {
    var ledger := new Ledger(cap);
    for i := 0 to |events|
      invariant ledger.Valid() && ledger.cap == cap && ledger.rows == RunAll(events[..i], cap)
    {
      assert events[..i + 1][..i] == events[..i];
      match events[i] {
        case Reserving(day, estimate) =>
          if estimate > 0 { var _ := ledger.Reserve(day, estimate); }
        case Completing(id, sent) =>
          if id < |ledger.rows| && ledger.rows[id].running { ledger.Complete(id, sent); }
        case Failing(id, known) =>
          if id < |ledger.rows| && ledger.rows[id].running { ledger.Fail(id, known); }
        case Abandoning(id, cleaned) =>
          if id < |ledger.rows| && ledger.rows[id].status.Probing? { ledger.Abandon(id, cleaned); }
      }
    }
    assert events[..|events|] == events;
    return ledger.rows;
  }

  lemma ApplyKeeps(rows: seq<Probe>, e: Event, cap: int)
    requires TableOk(rows, cap)
    ensures TableOk(Apply(rows, e, cap), cap)
  {
    hide Exposure, Overshoot;
    if Enabled(rows, e, cap) {
      match e {
        case Reserving(day, estimate) => ReservationKeeps(rows, day, estimate, cap);
        case Completing(id, sent) => ReplacementKeeps(rows, id, CompletedWith(rows[id], sent), cap);
        case Failing(id, sent) => ReplacementKeeps(rows, id, FailedWith(rows[id], sent), cap);
        case Abandoning(id, cleaned) => ReplacementKeeps(rows, id, CleanedUp(rows[id], cleaned), cap);
      }
    }
  }

  /** After every run, each day's exposure is within the cap plus what its windows overshot. */
  lemma {:induction false} ExposureBounded(events: seq<Event>, cap: nat)
    ensures TableOk(RunAll(events, cap), cap)
    decreases |events|
  {
    hide Apply;
    if events == [] {
    } else {
      ExposureBounded(events[..|events| - 1], cap);
      ApplyKeeps(RunAll(events[..|events| - 1], cap), events[|events| - 1], cap);
    }
  }

  /** No window beyond its reservation, no day beyond its cap. */
  lemma CapHolds(events: seq<Event>, cap: nat, day: string)
    requires forall p :: p in RunAll(events, cap) ==> LockedCharge(p) <= p.estimate
    ensures Exposure(RunAll(events, cap), day) <= cap
  {
    hide RunAll;
    ExposureBounded(events, cap);
    NoOvershoot(RunAll(events, cap), day);
  }

  lemma {:induction false} NoOvershoot(rows: seq<Probe>, day: string)
    requires forall p :: p in rows ==> LockedCharge(p) <= p.estimate
    ensures Overshoot(rows, day) == 0
  {
    if rows != [] { NoOvershoot(rows[1..], day); }
  }

  // ------------------------------------------------------------------
  // The reservation without its lock
  // ------------------------------------------------------------------

  datatype Request = Request(client: nat, day: string, estimate: int)

  /** The two statements of a reservation, which the advisory lock keeps together. */
  datatype Part = Reads(r: Request) | Inserts(r: Request)

  /** The table and the sum each client last read. */
  datatype Racing = Racing(rows: seq<Probe>, seen: map<nat, int>)

  function Act(s: Racing, x: Part, cap: int): Racing {
    match x
    case Reads(r) => s.(seen := s.seen[r.client := Exposure(s.rows, r.day)])
    case Inserts(r) =>
      if r.client in s.seen && r.estimate > 0 && s.seen[r.client] + r.estimate <= cap
      then s.(rows := s.rows + [Reserved(r.day, r.estimate)])
      else s
  }

  function ActAll(s: Racing, xs: seq<Part>, cap: int): Racing {
    if xs == [] then s else Act(ActAll(s, xs[..|xs| - 1], cap), xs[|xs| - 1], cap)
  }

  lemma ActTwo(s: Racing, xs: seq<Part>, x: Part, y: Part, cap: int)
    ensures ActAll(s, xs + [x, y], cap) == Act(Act(ActAll(s, xs, cap), x, cap), y, cap)
  {
    assert (xs + [x, y])[..|xs| + 1] == xs + [x] && (xs + [x])[..|xs|] == xs;
  }

  /** What the lock permits: each insert right after its own read. */
  function LockedOrder(rs: seq<Request>): seq<Part> {
    if rs == [] then [] else LockedOrder(rs[..|rs| - 1]) + [Reads(rs[|rs| - 1]), Inserts(rs[|rs| - 1])]
  }

  function Reservations(rs: seq<Request>): seq<Event> {
    seq(|rs|, i requires 0 <= i < |rs| => Reserving(rs[i].day, rs[i].estimate))
  }

  /** In that order the two statements are one: the table is that of atomic reservations. */
  lemma {:induction false} LockMakesAtomic(rs: seq<Request>, cap: int)
    ensures ActAll(Racing([], map[]), LockedOrder(rs), cap).rows == RunAll(Reservations(rs), cap)
    decreases |rs|
  {
    if rs == [] {
    } else {
      var front, last := rs[..|rs| - 1], rs[|rs| - 1];
      LockMakesAtomic(front, cap);
      ActTwo(Racing([], map[]), LockedOrder(front), Reads(last), Inserts(last), cap);
      assert Reservations(rs)[..|rs| - 1] == Reservations(front);
    }
  }

  /**
   Two reservations that both read before either inserts: together they break
   the cap exactly when each fits alone and the two do not fit together.
   */
  lemma LockIsNeeded(s: Racing, a: Request, b: Request, cap: int)
    requires a.client != b.client && a.day == b.day && a.estimate > 0 && b.estimate > 0
    requires Exposure(s.rows, a.day) <= cap
    ensures var u := ActAll(s, [Reads(a), Reads(b)] + [Inserts(a), Inserts(b)], cap);
            Exposure(u.rows, a.day) > cap <==>
              && Exposure(s.rows, a.day) + a.estimate <= cap
              && Exposure(s.rows, a.day) + b.estimate <= cap
              && Exposure(s.rows, a.day) + a.estimate + b.estimate > cap
  {
    ActTwo(s, [], Reads(a), Reads(b), cap);
    assert [] + [Reads(a), Reads(b)] == [Reads(a), Reads(b)];
    ActTwo(s, [Reads(a), Reads(b)], Inserts(a), Inserts(b), cap);
    var p, q := Reserved(a.day, a.estimate), Reserved(b.day, b.estimate);
    AddedRow(s.rows, p, a.day);
    AddedRow(s.rows, q, a.day);
    AddedRow(s.rows + [p], q, a.day);
  }
}
