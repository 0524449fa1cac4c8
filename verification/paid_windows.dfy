/** The clock windows of planning, dispatch, watch, paid run and CREATE, and how they nest. */
module PaidWindows {
  import opened Common
  import opened OwnerLedger
  import P = PaidProtocol
  import W = StopWatcher

  /** gate05SciencePlanWindowV39: the first five-minute mark at least twenty minutes away. */
  function PlanStart(now: int): int { CeilDiv(now + 20 * MINUTE, 5 * MINUTE) * (5 * MINUTE) }

  predicate DispatchAdmits(now: int, start: int) { start - 85 * MINUTE <= now < start - 11 * MINUTE }

  predicate PaidAdmits(now: int, start: int) { start - 9 * MINUTE <= now <= start + 15000 }

  predicate StopIsLiveAt(now: int, start: int) { start - 10 * MINUTE <= now <= start + 15000 }

  /** When the POST may go out: the wait for the start, then the last clock check. */
  predicate MayPost(now: int, start: int) { now >= start && P.MayCreateInTime(now, start, start + HOUR) }

  lemma PlanStartIsTheNextMark(now: int, mark: int)
    ensures now + 20 * MINUTE <= PlanStart(now) < now + 25 * MINUTE
    ensures PlanStart(now) % (5 * MINUTE) == 0
    ensures mark % (5 * MINUTE) == 0 && mark >= now + 20 * MINUTE ==> mark >= PlanStart(now)
  {
    var a, b := now + 20 * MINUTE, 5 * MINUTE;
    var q := (-a) / b;
    assert -a == q * b + (-a) % b;
    assert PlanStart(now) == -q * b;
    if mark % b == 0 && mark >= a {
      var k := mark / b;
      assert mark == k * b;
    }
  }

  /**
   Whenever the plan is made, every later stage has room: nine minutes to
   dispatch, a minute for the watcher to arm before the paid run may begin,
   and a receipt posted at any admitted moment is still fresh at every moment
   the POST may go out.
   */
  lemma EveryPlanCanBePaid(planned: int, dispatched: int, armed: int, paid: int, posted: int)
    requires var s := PlanStart(planned);
      && planned <= dispatched < planned + 9 * MINUTE
      && s - 10 * MINUTE <= armed <= s - 9 * MINUTE
      && s - 9 * MINUTE <= paid <= s && s <= posted <= s + 15000
    ensures var s := PlanStart(planned);
      && DispatchAdmits(dispatched, s)
      && W.Admitted(s, s + HOUR, armed)
      && PaidAdmits(paid, s) && StopIsLiveAt(paid, s)
      && MayPost(posted, s)
      && posted - armed <= 12 * MINUTE && dispatched < armed <= paid <= posted
  {
    PlanStartIsTheNextMark(planned, 0);
  }

  /** Each gate around the start, in milliseconds. */
  lemma GatesInMilliseconds(start: int, t: int)
    ensures DispatchAdmits(t, start) <==> -5100000 <= t - start < -660000
    ensures W.Admitted(start, start + HOUR, t) <==> -600000 <= t - start <= 60000
    ensures PaidAdmits(t, start) <==> -540000 <= t - start <= 15000
    ensures StopIsLiveAt(t, start) <==> -600000 <= t - start <= 15000
    ensures P.RestoreWindow(t, start) <==> -600000 <= t - start <= -30000
  { }

  /** The windows in order: what each gate admits, the gates after it can still meet. */
  lemma WindowsNest(start: int, dispatched: int, armed: int, t: int)
    requires DispatchAdmits(dispatched, start) && W.Admitted(start, start + HOUR, armed)
    ensures dispatched + MINUTE < armed
    ensures MayPost(t, start) <==> start <= t <= start + 15000
    ensures MayPost(t, start) ==> PaidAdmits(t, start) && StopIsLiveAt(t, start) && t - armed <= 12 * MINUTE
    ensures PaidAdmits(t, start) ==> StopIsLiveAt(t, start)
    ensures MayPost(t, start) ==> !P.RestoreWindow(t, start)
    ensures P.RestoreWindow(t, start) ==> StopIsLiveAt(t, start)
  { }
}
