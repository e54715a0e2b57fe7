/**
  The rebalance gate of the benchmark algorithm, as a function of its two
  dates. Times are instants in seconds; `days` is the rebalance interval
  in days.

  A rebalance is due on the first bar, and afterwards on any bar at or
  after `nextRebalanceDate`; a rebalance at time `t` sets the dates to `t`
  and `t + days`. `Rebalances` lists the times at which a run of bars
  rebalances, and the lemmas show that the first bar always rebalances and
  that successive rebalances are at least `days` days apart.
*/
module RebalanceSchedule {
  import opened Options

  const SecondsPerDay: int := 86400

  /** `context.rebalance_date` and `context.next_rebalance_date`; `None`
      is "not set yet" (for the second, the attribute does not exist). */
  datatype Schedule = Schedule(rebalanceDate: Option<int>, nextRebalanceDate: Option<int>)

  /** The dates as `initialize` leaves them. */
  const Initial: Schedule := Schedule(None, None)

  /** What the gate needs in order to be evaluated: the next date is only
      looked at when a rebalance date is set, so it must exist by then. */
  predicate NextDateDefined(s: Schedule) {
    s.rebalanceDate.None? || s.nextRebalanceDate.Some?
  }

  /** The invariant of the dates: both unset, or the next date is `days`
      days after the last rebalance. */
  ghost predicate Consistent(s: Schedule, days: int) {
    && (s.rebalanceDate.None? ==> s.nextRebalanceDate.None?)
    && (s.rebalanceDate.Some? ==> s.nextRebalanceDate == Some(s.rebalanceDate.value + days * SecondsPerDay))
  }

  /** The gate of `handle_data`. */
  predicate Due(s: Schedule, t: int)
    requires NextDateDefined(s)
  {
    s.rebalanceDate.None? || t >= s.nextRebalanceDate.value
  }

  /** The dates after the bar at time `t`. */
  function Step(s: Schedule, days: int, t: int): Schedule
    requires NextDateDefined(s)
  {
    if Due(s, t) then Schedule(Some(t), Some(t + days * SecondsPerDay)) else s
  }

  /** The times, among the bars at `times`, at which a rebalance happens,
      starting from the dates `s`. */
  function Rebalances(s: Schedule, days: int, times: seq<int>): seq<int>
    requires NextDateDefined(s)
    decreases |times|
  {
    if times == [] then []
    else (if Due(s, times[0]) then [times[0]] else []) + Rebalances(Step(s, days, times[0]), days, times[1..])
  }

  /** Each bar keeps the invariant of the dates, and rebalances exactly
      when the gate is open; inside the window nothing changes. */
  lemma StepKeepsConsistent(s: Schedule, days: int, t: int)
    requires Consistent(s, days)
    ensures NextDateDefined(s)
    ensures Consistent(Step(s, days, t), days)
    ensures s.rebalanceDate.Some? && t < s.nextRebalanceDate.value ==> Step(s, days, t) == s
    ensures s.rebalanceDate.None? || t >= s.nextRebalanceDate.value ==>
      Step(s, days, t).rebalanceDate == Some(t)
  {
  }

  /** The first bar after `initialize` always rebalances, whatever its time. */
  lemma FirstBarRebalances(days: int, times: seq<int>)
    requires times != []
    ensures Rebalances(Initial, days, times) != []
    ensures Rebalances(Initial, days, times)[0] == times[0]
  {
  }

  /** Rebalances happen only at bar times, at most one per bar. */
  lemma {:induction false} RebalancesAreBarTimes(s: Schedule, days: int, times: seq<int>)
    requires NextDateDefined(s)
    ensures |Rebalances(s, days, times)| <= |times|
    ensures forall i :: 0 <= i < |Rebalances(s, days, times)| ==> Rebalances(s, days, times)[i] in times
    decreases |times|
  {
    if times != [] {
      var s' := Step(s, days, times[0]);
      RebalancesAreBarTimes(s', days, times[1..]);
      var rest := Rebalances(s', days, times[1..]);
      forall i | 0 <= i < |rest| ensures rest[i] in times {
        assert rest[i] in times[1..];
      }
    }
  }

  /** `r` lists times at least `gap` apart, in order. */
  ghost predicate Spaced(r: seq<int>, gap: int) {
    forall i :: 0 <= i < |r| - 1 ==> r[i] + gap <= r[i + 1]
  }

  /** Successive rebalances are at least `days` days apart, and none comes
      before the next date already scheduled. This holds for bars in any
      order, since the gate compares each bar with the next date only. */
  lemma {:induction false} RebalancesSpaced(s: Schedule, days: nat, times: seq<int>)
    requires Consistent(s, days)
    ensures NextDateDefined(s)
    ensures Spaced(Rebalances(s, days, times), days * SecondsPerDay)
    ensures s.rebalanceDate.Some? ==>
      forall i :: 0 <= i < |Rebalances(s, days, times)| ==> Rebalances(s, days, times)[i] >= s.nextRebalanceDate.value
    decreases |times|
  {
    if times != [] {
      var t := times[0];
      var s' := Step(s, days, t);
      StepKeepsConsistent(s, days, t);
      RebalancesSpaced(s', days, times[1..]);
      var rest := Rebalances(s', days, times[1..]);
      var r := Rebalances(s, days, times);
      if Due(s, t) {
        assert r == [t] + rest;
        forall i | 0 <= i < |r| - 1 ensures r[i] + days * SecondsPerDay <= r[i + 1] {
          if i > 0 {
            assert r[i] == rest[i - 1] && r[i + 1] == rest[i];
          }
        }
      } else {
        assert r == rest;
      }
    }
  }
}
