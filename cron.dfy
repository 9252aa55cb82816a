/**
 * The cron hook that renews the PayWay secret API key at most once a day,
 * remembering the time of the last renewal in Drupal's state store.
 */
module PaywayCron {
  import opened Php
  import opened Model

  const LastCronKey := "commerce_payway.last_cron"
  /** Seconds in a day. */
  const Day := 86400

  /**
   * Whether a run at `now` renews the key: unless the last run is recorded
   * (as a truthy value) and lies strictly within the past day.
   */
  function Due(lastRun: Option<int>, now: int): (r: bool)
    ensures r <==> lastRun.None? || lastRun.value == 0 || lastRun.value <= now - Day
  {
    !(TruthyInt(lastRun) && lastRun.value > now - Day)
  }

  /**
   * After a renewal recorded at t, runs are skipped for exactly the next
   * day: every moment before t + 86400 is throttled, t + 86400 itself and
   * every later moment is due.
   */
  lemma ThrottleWindow(t: int, now: int)
    requires t != 0
    ensures Due(Some(t), now) <==> now >= t + Day
  {
  }

  /** Once due, a run stays due as time passes, as long as nothing records a new run. */
  lemma DueStaysDue(lastRun: Option<int>, now: int, later: int)
    requires Due(lastRun, now) && now <= later
    ensures Due(lastRun, later)
  {
  }

  /** Drupal's key/value state store (`\Drupal::state()`), for integer values. */
  class StateStore {
    var values: map<string, int>

    constructor (values: map<string, int>)
      ensures this.values == values
    {
      this.values := values;
    }

    function Get(key: string): (r: Option<int>)
      reads this
      ensures r.Some? <==> key in values
      ensures r.Some? ==> r.value == values[key]
    {
      if key in values then Some(values[key]) else None
    }

    method Set(key: string, value: int)
      modifies this
      ensures values == old(values)[key := value]
    {
      values := values[key := value];
    }
  }

  class Cron {
    const state: StateStore

    constructor (state: StateStore)
      ensures this.state == state
    {
      this.state := state;
    }

    /**
     * One cron run. `clockBefore` and `clockAfter` are the two readings of
     * the clock, before and after the renewal; `renewal` is how the client's
     * refreshSecretKey ends. `renewed` tells whether it was called. A
     * renewal that throws propagates and leaves the recorded time alone.
     */
    method Run(clockBefore: int, clockAfter: int, renewal: Outcome) returns (renewed: bool, r: Outcome)
      modifies state
      ensures renewed == Due(old(state.Get(LastCronKey)), clockBefore)
      ensures !renewed ==> r == Done && state.values == old(state.values)
      ensures renewed && renewal.Raised? ==> r == renewal && state.values == old(state.values)
      ensures renewed && renewal == Done ==> r == Done && state.values == old(state.values)[LastCronKey := clockAfter]
    {
      var lastRun := state.Get(LastCronKey);
      if TruthyInt(lastRun) && lastRun.value > clockBefore - Day {
        return false, Done;
      }
      renewed := true;
      if renewal.Raised? {
        return renewed, renewal;
      }
      state.Set(LastCronKey, clockAfter);
      r := Done;
    }
  }
}
