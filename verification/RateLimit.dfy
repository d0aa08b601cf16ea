/**
 The order rate limit over whole runs: the times of attempts the session keeps, which it prunes at each
 attempt and rebuilds from the ledger at each restart, limit every window of the ledger's attempts.
*/
module RateLimit {
  import opened Base
  import opened Risk

  /** The times after `start`. */
  function Later(times: seq<int64>, start: int): seq<int64> {
    if times == [] then []
    else
      var last := times[|times| - 1];
      Later(times[..|times| - 1], start) + if last > start then [last] else []
  }

  method LaterTimes(times: seq<int64>, start: int) returns (kept: seq<int64>)
    ensures kept == Later(times, start)
  {
    kept := [];
    for i := 0 to |times|
      invariant kept == Later(times[..i], start)
    {
      assert times[..i + 1][..i] == times[..i];
      if times[i] > start {
        kept := kept + [times[i]];
      }
    }
    assert times[..|times|] == times;
  }

  /** The times in the window. */
  function Within(times: seq<int64>, start: int, now: int64): seq<int64> {
    if times == [] then []
    else
      var last := times[|times| - 1];
      Within(times[..|times| - 1], start, now) + if start < last <= now then [last] else []
  }

  method WindowTimes(times: seq<int64>, start: int, now: int64) returns (kept: seq<int64>)
    ensures kept == Within(times, start, now)
  {
    kept := [];
    for i := 0 to |times|
      invariant kept == Within(times[..i], start, now)
    {
      assert times[..i + 1][..i] == times[..i];
      if start < times[i] <= now {
        kept := kept + [times[i]];
      }
    }
    assert times[..|times|] == times;
  }

  /** The times of the attempts in the ledger, those the session knows and those it keeps, and whether it can
      still write. */
  datatype Pace = Pace(recorded: seq<int64>, attempts: seq<int64>, kept: seq<int64>, running: bool)

  /** No attempt. */
  ghost predicate Stands(r: Pace, s: Pace) {
    s.recorded == r.recorded && s.kept == r.kept && (s.running ==> r.running && s.attempts == r.attempts)
  }

  /** An attempt at `time`. One whose write fails may stand in the ledger all the same; the session can then
      write no more. */
  ghost predicate Advances(c: Config, r: Pace, s: Pace, time: int64) {
    && r.running && s.recorded == r.recorded + [time]
    && (s.running ==> s.attempts == r.attempts + [time] && s.kept == Later(r.kept + [time], WindowStart(c, time)))
  }

  /** One preparation, decided at `now`: nothing, or an attempt under the rate rule. */
  ghost predicate Moves(c: Config, r: Pace, s: Pace, now: instant, time: int64) {
    Stands(r, s) || (Recent(r.kept, WindowStart(c, now), now) < c.maximumOrdersPerWindow && Advances(c, r, s, time))
  }

  /** An attempt, unless there was none; a cancellation is none. */
  ghost predicate StandsOrAdvances(c: Config, r: Pace, s: Pace, cancels: bool, time: int64) {
    Stands(r, s) || (!cancels && Advances(c, r, s, time))
  }

  lemma StandingMoves(c: Config, r: Pace, s: Pace, now: instant, time: int64)
    ensures Stands(r, s) ==> Moves(c, r, s, now, time)
  {
    hide Recent, Later;
  }

  lemma StandsThenMoves(c: Config, r: Pace, s: Pace, t: Pace, now: instant, time: int64)
    requires Stands(r, s)
    ensures Moves(c, s, t, now, time) ==> Moves(c, r, t, now, time)
  {
    hide Recent, Later;
  }

  lemma MovesThenStands(c: Config, r: Pace, s: Pace, t: Pace, now: instant, time: int64)
    requires Moves(c, r, s, now, time) && Stands(s, t)
    ensures Moves(c, r, t, now, time)
  {
    hide Recent, Later;
  }

  /** An attempt under the rule. */
  lemma AdvancingMoves(c: Config, r: Pace, s: Pace, cancels: bool, now: instant, time: int64)
    requires StandsOrAdvances(c, r, s, cancels, time)
    requires !cancels ==> Recent(r.kept, WindowStart(c, now), now) < c.maximumOrdersPerWindow
    ensures Moves(c, r, s, now, time)
  {
    hide Recent, Later;
  }

  /** Every process starts with the attempts its ledger holds. */
  function Restarted(c: Config, recorded: seq<int64>, now: int64): Pace {
    Pace(recorded, recorded, Within(recorded, WindowStart(c, now), now), true)
  }

  /** A state and the latest clock reading. */
  datatype Rate = Rate(pace: Pace, clock: instant)

  /** A preparation by a clock that does not run backwards, or a restart from the ledger. */
  ghost predicate Step(c: Config, r: Rate, s: Rate) {
    || (exists now: instant :: r.clock <= now <= s.clock && Moves(c, r.pace, s.pace, now, s.clock))
    || (r.clock <= s.clock && s.pace == Restarted(c, r.pace.recorded, s.clock))
  }

  /** Every state of a run from an empty ledger. */
  ghost predicate Run(c: Config, states: seq<Rate>) {
    && states != [] && states[0].pace == Pace([], [], [], true)
    && forall i :: 0 <= i < |states| - 1 ==> Step(c, states[i], states[i + 1])
  }

  // ---------------------------------------------------------------- counting

  lemma {:induction false} RecentSnoc(times: seq<int64>, time: int64, start: int, now: int)
    requires INT64_MIN <= now <= INT64_MAX
    ensures Recent(times + [time], start, now) == Recent(times, start, now) + if start < time <= now then 1 else 0
  {
    assert (times + [time])[..|times|] == times;
  }

  /** A narrower window holds no more. */
  lemma {:induction false} RecentShrinks(times: seq<int64>, start: int, later: int, now: int64, earlier: int64)
    requires start <= later && forall i :: 0 <= i < |times| ==> times[i] <= earlier
    ensures Recent(times, later, now) <= Recent(times, start, earlier)
  {
    if times != [] {
      RecentShrinks(times[..|times| - 1], start, later, now, earlier);
    }
  }

  /** Pruning hides only what lies before the window. */
  lemma {:induction false} LaterCounts(times: seq<int64>, bound: int, start: int, now: int64)
    requires bound <= start
    ensures Recent(Later(times, bound), start, now) == Recent(times, start, now)
  {
    if times != [] {
      var n := |times| - 1;
      LaterCounts(times[..n], bound, start, now);
      assert Later(times[..n], bound) + [] == Later(times[..n], bound);
      if times[n] > bound {
        RecentSnoc(Later(times[..n], bound), times[n], start, now);
      }
    }
  }

  lemma {:induction false} LaterOfLater(times: seq<int64>, time: int64, bound: int, start: int)
    requires bound <= start
    ensures Later(Later(times, bound) + [time], start) == Later(times + [time], start)
  {
    var kept := Later(times, bound);
    assert (kept + [time])[..|kept|] == kept && (times + [time])[..|times|] == times;
    LaterTwice(times, bound, start);
  }

  lemma {:induction false} LaterTwice(times: seq<int64>, bound: int, start: int)
    requires bound <= start
    ensures Later(Later(times, bound), start) == Later(times, start)
  {
    if times != [] {
      var n := |times| - 1;
      LaterTwice(times[..n], bound, start);
      var kept := Later(times[..n], bound);
      assert kept + [] == kept && Later(kept, start) + [] == Later(kept, start);
      if times[n] > bound {
        assert (kept + [times[n]])[..|kept|] == kept;
      }
    }
  }

  /** At a time no attempt has passed, the window keeps what is later than its start. */
  lemma {:induction false} WithinIsLater(times: seq<int64>, start: int, now: int64)
    requires forall i :: 0 <= i < |times| ==> times[i] <= now
    ensures Within(times, start, now) == Later(times, start)
  {
    if times != [] {
      WithinIsLater(times[..|times| - 1], start, now);
    }
  }

  // ---------------------------------------------------------------- the invariant

  /** The attempts in the window that ends at `t`. */
  function InWindow(c: Config, attempts: seq<int64>, t: int64): nat {
    Recent(attempts, t - c.window, t)
  }

  ghost predicate Limited(c: Config, attempts: seq<int64>) {
    forall t: int64 :: InWindow(c, attempts, t) <= c.maximumOrdersPerWindow
  }

  /** Every window is limited, and what the session keeps shows the recent attempts of its ledger. */
  ghost predicate Good(c: Config, r: Pace, clock: instant) {
    && (forall i :: 0 <= i < |r.recorded| ==> r.recorded[i] <= clock)
    && Limited(c, r.recorded)
    && (r.running ==>
          r.attempts == r.recorded && exists bound :: bound <= clock - c.window && r.kept == Later(r.recorded, bound))
  }

  /** An attempt under the rule leaves every window limited. */
  lemma {:induction false} AttemptIsLimited(c: Config, attempts: seq<int64>, now: instant, time: instant)
    requires ValidConfig(c) && Limited(c, attempts) && now <= time
    requires forall i :: 0 <= i < |attempts| ==> attempts[i] <= now
    requires Recent(attempts, now - c.window, now) < c.maximumOrdersPerWindow
    ensures Limited(c, attempts + [time])
  {
    hide Recent;
    forall t: int64 ensures InWindow(c, attempts + [time], t) <= c.maximumOrdersPerWindow {
      assert InWindow(c, attempts, t) <= c.maximumOrdersPerWindow;
      RecentSnoc(attempts, time, t - c.window, t);
      if t >= time {
        RecentShrinks(attempts, now - c.window, t - c.window, t, now);
      }
    }
  }

  /** A preparation keeps every window limited, even when the process ends at the attempt. */
  lemma {:induction false} MoveIsGood(c: Config, r: Pace, s: Pace, clock: instant, now: instant, time: instant)
    requires ValidConfig(c) && Good(c, r, clock) && clock <= now <= time && Moves(c, r, s, now, time)
    ensures Good(c, s, time)
  {
    hide Recent, Later, Within, Limited;
    if r.running {
      var bound :| bound <= clock - c.window && r.kept == Later(r.recorded, bound);
      if s.recorded == r.recorded + [time] && Recent(r.kept, WindowStart(c, now), now) < c.maximumOrdersPerWindow {
        LaterCounts(r.recorded, bound, now - c.window, now);
        AttemptIsLimited(c, r.recorded, now, time);
        LaterOfLater(r.recorded, time, bound, time - c.window);
      }
    }
  }

  lemma GoodLater(c: Config, r: Pace, clock: instant, later: instant)
    requires Good(c, r, clock) && clock <= later
    ensures Good(c, r, later)
  {
    hide Later, Limited;
  }

  /** A restart rebuilds what the session keeps from the ledger. */
  lemma {:induction false} RestartIsGood(c: Config, r: Pace, clock: instant, now: instant)
    requires ValidConfig(c) && Good(c, r, clock) && clock <= now
    ensures Good(c, Restarted(c, r.recorded, now), now)
  {
    hide Limited;
    WithinIsLater(r.recorded, WindowStart(c, now), now);
  }

  lemma {:induction false} StepIsGood(c: Config, r: Rate, s: Rate)
    requires ValidConfig(c) && Good(c, r.pace, r.clock) && Step(c, r, s)
    ensures Good(c, s.pace, s.clock)
  {
    hide Moves, Good, Restarted;
    if s.pace == Restarted(c, r.pace.recorded, s.clock) {
      RestartIsGood(c, r.pace, r.clock, s.clock);
    } else {
      var now: instant :| r.clock <= now <= s.clock && Moves(c, r.pace, s.pace, now, s.clock);
      MoveIsGood(c, r.pace, s.pace, r.clock, now, s.clock);
    }
  }

  /** Over any run with a clock that does not run backwards, with any restarts, no window of the configured
      length ever holds more attempts than the configured number. */
  lemma {:induction false} EveryWindowIsLimited(c: Config, states: seq<Rate>)
    requires ValidConfig(c) && Run(c, states)
    ensures forall i, t: int64 :: 0 <= i < |states| ==>
              InWindow(c, states[i].pace.recorded, t) <= c.maximumOrdersPerWindow
    decreases |states|
  {
    hide InWindow, Step;
    RunIsGood(c, states);
    forall i, t: int64 | 0 <= i < |states|
      ensures InWindow(c, states[i].pace.recorded, t) <= c.maximumOrdersPerWindow
    {
      assert Good(c, states[i].pace, states[i].clock) && Limited(c, states[i].pace.recorded);
    }
  }

  lemma {:induction false} RunIsGood(c: Config, states: seq<Rate>)
    requires ValidConfig(c) && Run(c, states)
    ensures forall i :: 0 <= i < |states| ==> Good(c, states[i].pace, states[i].clock)
    decreases |states|
  {
    hide Step, Good;
    var n := |states| - 1;
    if n == 0 {
      NothingIsGood(c, states[0].clock);
    } else {
      RunIsGood(c, states[..n]);
      assert Good(c, states[..n][n - 1].pace, states[..n][n - 1].clock) && Step(c, states[n - 1], states[n - 1 + 1]);
      StepIsGood(c, states[n - 1], states[n]);
      forall i | 0 <= i < |states| ensures Good(c, states[i].pace, states[i].clock) {
        if i < n {
          assert Good(c, states[..n][i].pace, states[..n][i].clock);
        }
      }
    }
  }

  lemma NothingIsGood(c: Config, clock: instant)
    ensures Good(c, Pace([], [], [], true), clock)
  {
    assert [] == Later([], clock - c.window);
  }
}
