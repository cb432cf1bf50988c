/**
  Concrete cases of the dashboard's arithmetic: the shipped calendar, a few
  worked examples, and the boundary cases of each forecast.
 */
module Scenarios {
  import opened Wrappers
  import opened BusinessDays
  import opened Events
  import opened Metrics
  import opened Forecast

  /** 346 machines with 100 completed and 50 scheduled leave 196 pending. */
  lemma PendingOfWorkedExample()
    ensures Pending(346, 100, 50) == 196
  {
  }

  /** More completed and scheduled rows than the target leave nothing pending rather than a negative count. */
  lemma PendingNeverNegative(target: int, completed: nat, scheduled: nat)
    requires completed + scheduled >= target
    ensures Pending(target, completed, scheduled) == 0
  {
  }

  /** On the rollout's first day the elapsed time is one day, so the pace is the completed count itself. */
  lemma FirstDayPaceIsCompletedCount(completed: nat, day: int)
    ensures ElapsedDays(day, day) == 1
    ensures CurrentPace(completed, ElapsedDays(day, day)) == completed as real
  {
  }

  /** With no business day left, 50 pending machines require a pace of 0, not a division by zero. */
  lemma RequiredPaceWithoutRunway()
    ensures RequiredPace(50, 0) == 0.0
  {
  }

  /** The shipped rollout starts on a Monday and support ends on a Tuesday. */
  lemma ShippedCalendarWeekdays()
    ensures Weekday(Shipped.rolloutStart) == 0
    ensures Weekday(Shipped.supportEnd) == 1
  {
  }

  /** From 2025-07-07 up to 2025-10-14 there are 71 business days: 14 whole weeks and one Monday. */
  lemma {:induction false} ShippedRolloutHas71BusinessDays()
    ensures BusdayCount(Shipped.rolloutStart, Shipped.supportEnd) == 71
  {
    var start := Shipped.rolloutStart;
    WeeksHaveFiveBusinessDaysEach(start, 14);
    CountSplit(start, start + 98, start + 99);
    assert IsBusinessDay(start + 98);
    assert CountForward(start + 98, start + 99) == 1;
  }

  /**
    After support ends, counting back from Saturday 2025-10-18 to Tuesday
    2025-10-14 gives -3: Wednesday, Thursday and Friday. The end day, the
    Tuesday, is not counted.
   */
  lemma {:induction false} WeekendAfterSupportEndCountsBackThree()
    ensures BusdayCount(Shipped.supportEnd + 4, Shipped.supportEnd) == -3
  {
    var end := Shipped.supportEnd;
    assert CountForward(end + 5, end + 5) == 0;
    assert CountForward(end + 4, end + 5) == 0;
    assert CountForward(end + 3, end + 5) == 1;
    assert CountForward(end + 2, end + 5) == 2;
  }

  /** With nothing pending, a positive throughput finishes today, when today is a business day. */
  lemma NothingPendingFinishesToday(today: int, throughput: real)
    requires IsBusinessDay(today) && throughput > 0.0
    ensures SimulateCompletion(0, today, throughput) == CompletesOn(today)
  {
  }

  /** A throughput of zero gives no forecast, whatever is pending. */
  lemma ZeroThroughputHasNoForecast(today: int)
    ensures SimulateCompletion(10, today, 0.0) == NoForecast
  {
  }

  /** 20 pending machines at 4 per business day take 5 business days. */
  lemma {:induction false} TwentyAtFourTakesFiveBusinessDays(today: int)
    requires IsBusinessDay(today)
    ensures BusinessDaysNeeded(20, 4.0) == 5
    ensures SimulateCompletion(20, today, 4.0) == CompletesOn(Advance(today, 5))
    ensures BusdayCount(today, Advance(today, 5)) == 5
  {
    var n := BusinessDaysNeeded(20, 4.0);
    FewestDaysAreUnique(20, 4.0, n, 5);
    AdvanceCount(today, 5);
  }

  /** Five business days from the rollout's first Monday is the following Monday. */
  lemma {:induction false} FiveBusinessDaysFromAMonday()
    ensures Advance(Shipped.rolloutStart, 5) == Shipped.rolloutStart + 7
  {
    var start := Shipped.rolloutStart;
    AdvanceCount(start, 5);
    WeekHasFiveBusinessDays(start);
    assert IsBusinessDay(start + 7);
    OffsetIsUnique(start, Advance(start, 5), start + 7);
  }

  /** A weekend start makes the simulated completion raise instead of returning a date. */
  lemma WeekendStartRaises(pending: nat, throughput: real)
    requires throughput > 0.0
    ensures SimulateCompletion(pending, Shipped.rolloutStart - 1, throughput) == NonBusinessDayStart
  {
  }

  /** With no gap, no extra effort is needed, even for an increment that would otherwise be invalid. */
  lemma NoGapNeedsNoExtraEffort(s: Snapshot, increment: real)
    requires s.pending as real <= s.currentPace * s.remainingBusinessDays as real
    ensures ExtraBusinessDays(s, increment) == Some(0)
  {
  }
}
