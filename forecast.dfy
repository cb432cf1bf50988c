/**
  The forecasts the dashboard derives from the metrics: the completion date
  at a given daily throughput (at the current pace, or at any simulated
  one), and the number of business days of extra effort that would close the
  gap between the pending work and what the current pace delivers.
 */
module Forecast {
  import opened Wrappers
  import opened BusinessDays
  import opened Events
  import opened Metrics

  /** np.ceil on a real: the least integer not below x. */
  function Ceil(x: real): (n: int)
    ensures x <= n as real < x + 1.0
  {
    -((-x).Floor)
  }

  /** Multiplying both sides of an inequality by a non-negative factor keeps it. */
  lemma ScaleLe(a: real, b: real, c: real)
    requires a <= b && c >= 0.0
    ensures a * c <= b * c
  {
  }

  /** Multiplying both sides of a strict inequality by a positive factor keeps it. */
  lemma ScaleLt(a: real, b: real, c: real)
    requires a < b && c > 0.0
    ensures a * c < b * c
  {
  }

  /** np.ceil(amount / step) steps of a positive size cover the amount. */
  lemma CeilQuotientCovers(amount: real, step: real)
    requires step > 0.0
    ensures Ceil(amount / step) as real * step >= amount
  {
    var x := amount / step;
    assert x * step == amount;
    ScaleLe(x, Ceil(x) as real, step);
  }

  /** One step fewer than np.ceil(amount / step) falls short of the amount. */
  lemma CeilQuotientIsFewest(amount: real, step: real)
    requires step > 0.0
    ensures (Ceil(amount / step) - 1) as real * step < amount
  {
    var x := amount / step;
    assert x * step == amount;
    var below := (Ceil(x) - 1) as real;
    ScaleLt(below, x, step);
    assert below * step < x * step;
  }

  /** n business days at `throughput` are the fewest that cover `pending`. */
  ghost predicate IsFewestDays(pending: nat, throughput: real, n: int) {
    && n >= 0
    && n as real * throughput >= pending as real
    && (n == 0 || (n - 1) as real * throughput < pending as real)
  }

  /** At a positive throughput, at most one count of business days is the fewest. */
  lemma FewestDaysAreUnique(pending: nat, throughput: real, n1: int, n2: int)
    requires throughput > 0.0
    requires IsFewestDays(pending, throughput, n1) && IsFewestDays(pending, throughput, n2)
    ensures n1 == n2
  {
    if n1 != n2 {
      var (fewer, more) := if n1 < n2 then (n1, n2) else (n2, n1);
      var short := (more - 1) as real * throughput;
      assert short < pending as real;
      ScaleLe(fewer as real, (more - 1) as real, throughput);
      assert false;
    }
  }

  /**
    int(np.ceil(pending / throughput)): the fewest business days in which
    `throughput` completions per business day cover the pending work.
   */
  function BusinessDaysNeeded(pending: nat, throughput: real): (n: nat)
    requires throughput > 0.0
    ensures IsFewestDays(pending, throughput, n)
  {
    CeilQuotientCovers(pending as real, throughput);
    CeilQuotientIsFewest(pending as real, throughput);
    Ceil(pending as real / throughput)
  }

  /** A completion forecast: no forecast (None), a date, or numpy's ValueError for a weekend start. */
  datatype Completion = NoForecast | CompletesOn(day: int) | NonBusinessDayStart

  /** The business days from `today` to `day` are the fewest that cover `pending` at `throughput`. */
  ghost predicate FinishesExactlyOn(pending: nat, today: int, throughput: real, day: int) {
    IsFewestDays(pending, throughput, BusdayCount(today, day))
  }

  /**
    simular_data_conclusao_por_produtividade: no forecast for a throughput of
    zero or less; otherwise today advanced by the business days needed at
    that throughput, which raises when today is not a business day.
   */
  function SimulateCompletion(pending: nat, today: int, throughput: real): (f: Completion)
    ensures f.NoForecast? <==> throughput <= 0.0
    ensures f.NonBusinessDayStart? <==> throughput > 0.0 && !IsBusinessDay(today)
    ensures f.CompletesOn? ==> IsBusinessDay(f.day) && today <= f.day
    ensures f.CompletesOn? ==> FinishesExactlyOn(pending, today, throughput, f.day)
  {
    if throughput <= 0.0 then NoForecast
    else
      match BusdayOffset(today, BusinessDaysNeeded(pending, throughput))
      case Date(d) => CompletesOn(d)
      case NonBusinessDayError => NonBusinessDayStart
  }

  /**
    previsao_conclusao_no_ritmo_atual: the completion date at the current
    (calendar-day) pace taken as a per-business-day throughput; no forecast
    exactly when nothing is completed yet.
   */
  function ForecastAtCurrentPace(events: seq<Event>, cfg: Config, today: int): (f: Completion)
    ensures f.NoForecast? <==> Completed(events) == 0
    ensures f.NonBusinessDayStart? <==> Completed(events) > 0 && !IsBusinessDay(today)
    ensures f.CompletesOn? ==> IsBusinessDay(f.day) && today <= f.day
    ensures f.CompletesOn? ==>
      var s := Measure(events, cfg, today);
      FinishesExactlyOn(s.pending, today, s.currentPace, f.day)
  {
    var s := Measure(events, cfg, today);
    SimulateCompletion(s.pending, today, s.currentPace)
  }

  /** A forecast date is the only business day that satisfies FinishesExactlyOn. */
  lemma ForecastDateIsUnique(pending: nat, today: int, throughput: real, other: int)
    requires throughput > 0.0 && IsBusinessDay(today)
    requires IsBusinessDay(other) && today <= other
    requires FinishesExactlyOn(pending, today, throughput, other)
    ensures SimulateCompletion(pending, today, throughput) == CompletesOn(other)
  {
    var day := SimulateCompletion(pending, today, throughput).day;
    FewestDaysAreUnique(pending, throughput, BusdayCount(today, day), BusdayCount(today, other));
    OffsetIsUnique(today, day, other);
  }

  /** A faster throughput needs no more business days. */
  lemma FasterNeedsNoMoreDays(pending: nat, slow: real, fast: real, nSlow: int, nFast: int)
    requires 0.0 < slow <= fast
    requires IsFewestDays(pending, slow, nSlow) && IsFewestDays(pending, fast, nFast)
    ensures nFast <= nSlow
  {
    ScaleLe(slow, fast, nSlow as real);
    if nFast > nSlow {
      ScaleLe(nSlow as real, (nFast - 1) as real, fast);
    }
  }

  /** From a business day, a faster simulated throughput never forecasts a later completion. */
  lemma FasterFinishesNoLater(pending: nat, today: int, slow: real, fast: real)
    requires 0.0 < slow <= fast
    requires IsBusinessDay(today)
    ensures SimulateCompletion(pending, today, fast).CompletesOn?
    ensures SimulateCompletion(pending, today, slow).CompletesOn?
    ensures SimulateCompletion(pending, today, fast).day <= SimulateCompletion(pending, today, slow).day
  {
    var nSlow, nFast := BusinessDaysNeeded(pending, slow), BusinessDaysNeeded(pending, fast);
    FasterNeedsNoMoreDays(pending, slow, fast, nSlow, nFast);
    if nFast < nSlow {
      AdvanceMonotone(today, nFast, nSlow);
    }
  }

  /**
    The gap of dias_uteis_extra_para_compensar: the pending work minus what
    the current pace adds by the end date. Written as the dashboard writes
    it, through the projected capacity; it comes down to pending minus pace
    times remaining business days.
   */
  function Gap(s: Snapshot): (g: real)
    ensures g == s.pending as real - s.currentPace * s.remainingBusinessDays as real
  {
    var capacity := s.completed as real + s.currentPace * s.remainingBusinessDays as real;
    s.pending as real - (capacity - s.completed as real)
  }

  /**
    dias_uteis_extra_para_compensar: 0 when there is no gap, whatever the
    increment; None when there is a gap and the increment is not positive;
    otherwise the fewest business days k with k * increment covering the gap.
   */
  function ExtraBusinessDays(s: Snapshot, increment: real): (r: Option<nat>)
    ensures r == Some(0) <==> Gap(s) <= 0.0
    ensures r == None <==> Gap(s) > 0.0 && increment <= 0.0
    ensures r.Some? && r.value > 0 ==>
      increment > 0.0 && r.value as real * increment >= Gap(s) > (r.value - 1) as real * increment
  {
    var gap := Gap(s);
    if gap <= 0.0 then Some(0)
    else if increment <= 0.0 then None
    else
      CeilQuotientCovers(gap, increment);
      CeilQuotientIsFewest(gap, increment);
      Some(Ceil(gap / increment))
  }

  /**
    No extra effort is needed exactly when the projection at the current pace
    reaches the completed plus the pending work; with business days left,
    exactly when the current pace is at least the required pace.
   */
  lemma NoExtraEffortIffPaceSuffices(s: Snapshot, increment: real)
    ensures ExtraBusinessDays(s, increment) == Some(0)
        <==> ProjectedTotal(s.completed, s.currentPace, s.remainingBusinessDays) >= (s.completed + s.pending) as real
    ensures s.remainingBusinessDays > 0 ==>
        (ExtraBusinessDays(s, increment) == Some(0)
         <==> s.currentPace >= RequiredPace(s.pending, s.remainingBusinessDays))
  {
    if s.remainingBusinessDays > 0 {
      ProjectionCoversPendingIffRequiredPace(s.completed, s.pending, s.currentPace, s.remainingBusinessDays);
    }
  }
}
