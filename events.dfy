/**
  The cleaned event table the dashboard reads from its spreadsheet, and the
  counts it derives from it: completed rows (status "SIM"), scheduled rows
  (status "NÃO") and the work still pending against the rollout target.
 */
module Events {

  /** The normalised "Concluido" cell: "SIM", "NÃO", or anything else. */
  datatype Status = Done | Scheduled | Other

  /** One spreadsheet row whose date parsed: its day number and status. */
  datatype Event = Event(day: int, status: Status)

  /** The number of rows that `keep` selects: the `shape[0]` of a boolean-mask filter. */
  function CountWhere(events: seq<Event>, keep: Event -> bool): (n: nat)
    ensures n <= |events|
  {
    if events == [] then 0
    else CountWhere(events[..|events| - 1], keep) + (if keep(events[|events| - 1]) then 1 else 0)
  }

  /** The positions of the rows that `keep` selects. */
  ghost function RowsWhere(events: seq<Event>, keep: Event -> bool): set<int> {
    set i | 0 <= i < |events| && keep(events[i])
  }

  /** CountWhere counts exactly the selected rows. */
  lemma {:induction false} CountWhereIsRows(events: seq<Event>, keep: Event -> bool)
    ensures CountWhere(events, keep) == |RowsWhere(events, keep)|
  {
    if events != [] {
      var prefix := events[..|events| - 1];
      CountWhereIsRows(prefix, keep);
      var last := if keep(events[|prefix|]) then {|prefix|} else {};
      forall i
        ensures i in RowsWhere(events, keep) <==> i in RowsWhere(prefix, keep) + last
      {
        if 0 <= i < |prefix| {
          assert events[i] == prefix[i];
        }
      }
      assert RowsWhere(events, keep) == RowsWhere(prefix, keep) + last;
    }
  }

  /** A filter that keeps no more rows than another counts no more. */
  lemma {:induction false} CountWhereMonotone(events: seq<Event>, keep: Event -> bool, wider: Event -> bool)
    requires forall e :: keep(e) ==> wider(e)
    ensures CountWhere(events, keep) <= CountWhere(events, wider)
  {
    if events != [] {
      CountWhereMonotone(events[..|events| - 1], keep, wider);
    }
  }

  /** Rows whose status is `s`: `df[df['Concluido'] == s].shape[0]`. */
  function Count(events: seq<Event>, s: Status): nat {
    CountWhere(events, (e: Event) => e.status == s)
  }

  /** total_concluido: the rows whose status is "SIM". */
  function Completed(events: seq<Event>): (n: nat)
    ensures n == |set i | 0 <= i < |events| && events[i].status == Done|
  {
    var done := (e: Event) => e.status == Done;
    CountWhereIsRows(events, done);
    assert RowsWhere(events, done) == set i | 0 <= i < |events| && events[i].status == Done;
    Count(events, Done)
  }

  /** agendados_atuais: the rows whose status is "NÃO". */
  function ScheduledCount(events: seq<Event>): (n: nat)
    ensures n == |set i | 0 <= i < |events| && events[i].status == Scheduled|
  {
    var scheduled := (e: Event) => e.status == Scheduled;
    CountWhereIsRows(events, scheduled);
    assert RowsWhere(events, scheduled) == set i | 0 <= i < |events| && events[i].status == Scheduled;
    Count(events, Scheduled)
  }

  /** Every row has exactly one of the three statuses. */
  lemma {:induction false} StatusesPartitionRows(events: seq<Event>)
    ensures Count(events, Done) + Count(events, Scheduled) + Count(events, Other) == |events|
  {
    if events != [] {
      StatusesPartitionRows(events[..|events| - 1]);
    }
  }

  /**
    pendentes_atual: the work not yet in the table, `target - (completed +
    scheduled)` clamped at zero. It is the least non-negative amount that
    brings completed + scheduled up to the target.
   */
  function Pending(target: int, completed: nat, scheduled: nat): (p: nat)
    ensures completed + scheduled + p >= target
    ensures p > 0 ==> completed + scheduled + p == target
  {
    var remaining := target - (completed + scheduled);
    if remaining > 0 then remaining else 0
  }

  /** The "SIM" rows dated on or after `limit`: the numerator of a trailing-window pace. */
  function CountDoneSince(events: seq<Event>, limit: int): (n: nat)
    ensures n == |set i | 0 <= i < |events| && events[i].status == Done && events[i].day >= limit|
  {
    var keep := (e: Event) => e.status == Done && e.day >= limit;
    CountWhereIsRows(events, keep);
    assert RowsWhere(events, keep) == set i | 0 <= i < |events| && events[i].status == Done && events[i].day >= limit;
    CountWhere(events, keep)
  }

  /**
    A window reaching further back counts at least as many recent
    completions, and no window counts more than all completions.
   */
  lemma DoneSinceMonotone(events: seq<Event>, earlier: int, later: int)
    requires earlier <= later
    ensures CountDoneSince(events, later) <= CountDoneSince(events, earlier) <= Completed(events)
  {
    CountWhereMonotone(events, (e: Event) => e.status == Done && e.day >= later, (e: Event) => e.status == Done && e.day >= earlier);
    CountWhereMonotone(events, (e: Event) => e.status == Done && e.day >= earlier, (e: Event) => e.status == Done);
  }
}
