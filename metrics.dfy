/**
  The rollout metrics the dashboard shows: elapsed calendar days, remaining
  business days, the current pace, the pace the remaining work requires, the
  projection at the current pace, and the paces of the trailing windows.
 */
module Metrics {
  import opened BusinessDays
  import opened Events

  /** META_TOTAL, DATA_INICIO_ROLLOUT and DATA_FIM_SUPORTE, as day numbers. */
  datatype Config = Config(target: int, rolloutStart: int, supportEnd: int)

  /** The configuration the dashboard ships with: 346 machines, from 2025-07-07 to 2025-10-14. */
  const Shipped: Config := Config(346, 20276, 20375)

  /** dias_decorridos: calendar days since the rollout started, never less than one. */
  function ElapsedDays(start: int, today: int): (n: int)
    ensures n >= 1 && n >= today - start
    ensures n == 1 || n == today - start
  {
    var days := today - start;
    if days > 1 then days else 1
  }

  /** ritmo_atual: completions per calendar day so far. */
  function CurrentPace(completed: nat, elapsed: int): (pace: real)
    requires elapsed >= 1
    ensures pace * elapsed as real == completed as real
    ensures pace >= 0.0
    ensures pace == 0.0 <==> completed == 0
  {
    completed as real / elapsed as real
  }

  /**
    meta_diaria_uteis: the completions per business day that would clear the
    pending work by the support end date; zero, rather than a division by
    zero, once no business day remains.
   */
  function RequiredPace(pending: nat, remaining: int): (pace: real)
    ensures remaining > 0 ==> pace * remaining as real == pending as real
    ensures remaining <= 0 ==> pace == 0.0
    ensures pace >= 0.0
  {
    if remaining > 0 then pending as real / remaining as real else 0.0
  }

  /** expectativa_ate_fim: completions by the end date if `pace` is kept for each remaining business day. */
  function ProjectedTotal(completed: nat, pace: real, remaining: int): (p: real)
    ensures remaining == 0 ==> p == completed as real
    ensures pace >= 0.0 && remaining >= 0 ==> p >= completed as real
    ensures pace > 0.0 && remaining > 0 ==> p > completed as real
    ensures pace > 0.0 && remaining < 0 ==> p < completed as real
  {
    completed as real + pace * remaining as real
  }

  /**
    With business days left, a pace brings the projection up to the completed
    plus the pending work exactly when it is at least the required pace.
   */
  lemma ProjectionCoversPendingIffRequiredPace(completed: nat, pending: nat, pace: real, remaining: int)
    requires remaining > 0
    ensures ProjectedTotal(completed, pace, remaining) >= (completed + pending) as real
            <==> pace >= RequiredPace(pending, remaining)
  {
    var required := RequiredPace(pending, remaining);
    var rem := remaining as real;
    assert ProjectedTotal(completed, pace, remaining) - (completed + pending) as real == (pace - required) * rem;
    if pace < required {
      assert (pace - required) * rem < 0.0;
    } else {
      assert (pace - required) * rem >= 0.0;
    }
  }

  /** The metrics of one dashboard refresh. */
  datatype Snapshot = Snapshot(
    completed: nat,
    scheduled: nat,
    pending: nat,
    elapsedDays: int,
    remainingBusinessDays: int,
    currentPace: real,
    requiredPace: real,
    projectedTotal: real)

  /** The CÁLCULOS block: every metric of the table `events` on day `today`. */
  function Measure(events: seq<Event>, cfg: Config, today: int): (s: Snapshot)
    ensures s.completed == |set i | 0 <= i < |events| && events[i].status == Done|
    ensures s.scheduled == |set i | 0 <= i < |events| && events[i].status == Scheduled|
    ensures s.completed + s.scheduled <= |events|
    ensures s.completed + s.scheduled + s.pending >= cfg.target
    ensures s.pending > 0 ==> s.completed + s.scheduled + s.pending == cfg.target
    ensures s.elapsedDays == ElapsedDays(cfg.rolloutStart, today)
    ensures s.remainingBusinessDays == BusdayCount(today, cfg.supportEnd)
    ensures s.currentPace * s.elapsedDays as real == s.completed as real
    ensures s.currentPace == 0.0 <==> s.completed == 0
    ensures s.remainingBusinessDays > 0 ==> s.requiredPace * s.remainingBusinessDays as real == s.pending as real
    ensures s.remainingBusinessDays <= 0 ==> s.requiredPace == 0.0
    ensures s.projectedTotal == ProjectedTotal(s.completed, s.currentPace, s.remainingBusinessDays)
  {
    StatusesPartitionRows(events);
    var completed := Completed(events);
    var scheduled := ScheduledCount(events);
    var pending := Pending(cfg.target, completed, scheduled);
    var elapsed := ElapsedDays(cfg.rolloutStart, today);
    var remaining := BusdayCount(today, cfg.supportEnd);
    var pace := CurrentPace(completed, elapsed);
    Snapshot(completed, scheduled, pending, elapsed, remaining, pace,
             RequiredPace(pending, remaining), ProjectedTotal(completed, pace, remaining))
  }

  /** ultimos_periodos: the trailing windows, in days. */
  const RecentWindows: seq<int> := [7, 14, 21]

  /** The pace over the last d days: recent "SIM" rows per day of the window. */
  function WindowPace(events: seq<Event>, today: int, d: int): (pace: real)
    requires d > 0
    ensures pace * d as real == CountDoneSince(events, today - d) as real
  {
    CountDoneSince(events, today - d) as real / d as real
  }

  /**
    ritmos_recentes: one entry per window d, the "SIM" rows dated on or after
    today - d spread over the d days. Each entry depends on its own window
    only.
   */
  method RecentPaces(events: seq<Event>, today: int, windows: seq<int>) returns (paces: map<int, real>)
    requires forall i :: 0 <= i < |windows| ==> windows[i] > 0
    ensures forall d :: d in paces <==> d in windows
    ensures forall d :: d in paces ==> d > 0 && paces[d] == WindowPace(events, today, d)
  {
    paces := map[];
    for i := 0 to |windows|
      invariant forall j :: 0 <= j < i ==> windows[j] in paces
      invariant forall d :: d in paces ==> d in windows && d > 0 && paces[d] == WindowPace(events, today, d)
    {
      var d := windows[i];
      paces := paces[d := WindowPace(events, today, d)];
    }
  }

  /**
    The shipped windows can be given to RecentPaces, and their counts come in
    order: 7 days <= 14 days <= 21 days <= all completions.
   */
  lemma RecentWindowCountsOrdered(events: seq<Event>, today: int)
    ensures forall i :: 0 <= i < |RecentWindows| ==> RecentWindows[i] > 0
    ensures forall i, j :: 0 <= i <= j < |RecentWindows| ==>
      CountDoneSince(events, today - RecentWindows[i]) <= CountDoneSince(events, today - RecentWindows[j])
    ensures forall i :: 0 <= i < |RecentWindows| ==> CountDoneSince(events, today - RecentWindows[i]) <= Completed(events)
  {
    forall i, j | 0 <= i <= j < |RecentWindows|
      ensures CountDoneSince(events, today - RecentWindows[i]) <= CountDoneSince(events, today - RecentWindows[j]) <= Completed(events)
    {
      DoneSinceMonotone(events, today - RecentWindows[j], today - RecentWindows[i]);
    }
  }
}
