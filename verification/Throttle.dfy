/** The token bucket of `throttle.py`, pruning as it goes. */
module Throttle {
  import opened Options
  import opened CheckThenAct

  const WINDOW_S := 3600.0
  const HOUR := Rolling(WINDOW_S)

  class TokenBucket {
    const jobsPerHour: Option<int>
    var timestamps: seq<real>
    ghost var history: seq<real>   // every claim ever recorded
    ghost var clock: real          // the latest time the bucket was asked about

    /** What pruning has dropped no later query needs. */
    ghost predicate Valid()
      reads this
    {
      forall t: real | t >= clock :: Live(HOUR, timestamps, t) == Live(HOUR, history, t)
    }

    constructor (jobsPerHour: Option<int>)
      ensures Valid() && this.jobsPerHour == jobsPerHour && history == [] && clock == 0.0
    {
      this.jobsPerHour := jobsPerHour;
      timestamps := [];
      history := [];
      clock := 0.0;
    }

    method Prune(now: real)
      requires Valid() && clock <= now
      modifies this`timestamps, this`clock
      ensures Valid() && clock == now
      ensures timestamps == Live(HOUR, history, now)
    {
      var cutoff := now - WINDOW_S;
      var kept := [];
      for i := 0 to |timestamps|
        invariant kept == Live(HOUR, timestamps[..i], now)
      {
        assert timestamps[..i + 1][..i] == timestamps[..i];
        if timestamps[i] > cutoff {
          kept := kept + [timestamps[i]];
        }
      }
      assert timestamps[..|timestamps|] == timestamps;
      forall t: real | t >= now ensures Live(HOUR, kept, t) == Live(HOUR, history, t) {
        PruneLosesNothing(HOUR, timestamps, now, t);
      }
      timestamps := kept;
      clock := now;
    }

    /** True exactly when fewer than `jobs_per_hour` of all claims ever made are in the last hour;
        no limit, or a limit of 0, is always true. */
    method HasCapacity(now: real) returns (capacity: bool)
      requires Valid() && clock <= now
      modifies this`timestamps, this`clock
      ensures Valid() && clock <= now
      ensures unchanged(`history)
      ensures capacity <==> jobsPerHour in {None, Some(0)} || |Live(HOUR, history, now)| < jobsPerHour.value
    {
      if jobsPerHour.None? || jobsPerHour.value == 0 {
        return true;
      }
      Prune(now);
      return |timestamps| < jobsPerHour.value;
    }

    method Consume(now: real)
      requires Valid() && clock <= now
      modifies this
      ensures Valid() && clock == now && history == old(history) + [now]
    {
      Prune(now);
      forall t: real | t >= now
        ensures Live(HOUR, timestamps + [now], t) == Live(HOUR, history + [now], t)
      {
        LiveConcat(HOUR, timestamps, [now], t);
        LiveConcat(HOUR, history, [now], t);
      }
      timestamps := timestamps + [now];
      history := history + [now];
    }
  }

  /** The worker loops of one pool on their shared bucket: check, claim, consume, with the awaits of
      the loops interleaved by `moves`.  The bucket keeps exactly the acts of the abstract limiter. */
  method DrivePool(jobsPerHour: nat, loops: nat, start: real, moves: seq<Move>) returns (bucket: TokenBucket)
    requires jobsPerHour >= 1 && start >= 0.0
    requires IsRun(Config(HOUR, jobsPerHour, loops), State(start, [], {}), moves)
    ensures fresh(bucket) && bucket.Valid()
    ensures bucket.history == After(Config(HOUR, jobsPerHour, loops), State(start, [], {}), moves).stamps
  {
    bucket := new TokenBucket(Some(jobsPerHour));
    ghost var cfg := Config(HOUR, jobsPerHour, loops);
    var now, passed := start, {};
    for k := 0 to |moves|
      invariant fresh(bucket) && bucket.Valid() && bucket.clock <= now && bucket.jobsPerHour == Some(jobsPerHour)
      invariant After(cfg, State(start, [], {}), moves[..k]) == State(now, bucket.history, passed)
    {
      assert moves[..k + 1][..k] == moves[..k];
      assert Enabled(cfg, After(cfg, State(start, [], {}), moves[..k]), moves[k]);
      match moves[k]
      case Tick(to) =>
        now := to;
      case Check(loop) =>
        var capacity := bucket.HasCapacity(now);
        if capacity {
          passed := passed + {loop};
        }
      case Act(loop) =>
        bucket.Consume(now);
        passed := passed - {loop};
      case GiveUp(loop) =>
        passed := passed - {loop};
    }
    assert moves[..|moves|] == moves;
  }

  /** The promise of the docstring, for a pool of worker loops sharing one bucket: in any window
      (t - 3600, t] at most `jobs_per_hour` + loops - 1 claims are consumed, so with one loop at most
      `jobs_per_hour`. */
  lemma ClaimsPerHour(jobsPerHour: nat, loops: nat, start: real, moves: seq<Move>, t: real)
    requires jobsPerHour >= 1 && loops >= 1
    requires IsRun(Config(HOUR, jobsPerHour, loops), State(start, [], {}), moves)
    ensures var stamps := After(Config(HOUR, jobsPerHour, loops), State(start, [], {}), moves).stamps;
            |set i | 0 <= i < |stamps| && t - WINDOW_S < stamps[i] <= t| <= jobsPerHour + loops - 1
  {
    var cfg := Config(HOUR, jobsPerHour, loops);
    var stamps := After(cfg, State(start, [], {}), moves).stamps;
    BoundHolds(cfg, start, moves);
    WindowIsTheSet(stamps, t);
  }

  lemma {:induction false} WindowIsTheSet(stamps: seq<real>, t: real)
    ensures InWindow(HOUR, stamps, t) == |set i | 0 <= i < |stamps| && t - WINDOW_S < stamps[i] <= t|
    decreases |stamps|
  {
    if stamps != [] {
      var n := |stamps| - 1;
      var init := stamps[..n];
      WindowIsTheSet(init, t);
      var before := set i | 0 <= i < n && t - WINDOW_S < init[i] <= t;
      var all := set i | 0 <= i < |stamps| && t - WINDOW_S < stamps[i] <= t;
      if t - WINDOW_S < stamps[n] <= t {
        assert all == before + {n};
      } else {
        assert all == before;
      }
    }
  }
}
