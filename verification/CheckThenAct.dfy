/**
 Limiters that check first and act later, with an `await` in between: the pool-wide token bucket of
 `throttle.py` as `worker.py` drives it, and the daily plugin budget of `pipeline.py`.  Both count the
 stamps of past acts that are still in force; a rolling window and a UTC day differ only in which are.
 */
module CheckThenAct {

  datatype Horizon = Rolling(width: real) | Daily

  const DAY := 86400.0

  function DayOf(t: real): int {
    (t / DAY).Floor
  }

  /** Is an act stamped `stamp` still in force at `now`? */
  predicate InForce(h: Horizon, stamp: real, now: real) {
    match h
    case Rolling(width) => stamp > now - width
    case Daily => DayOf(stamp) >= DayOf(now)
  }

  /** The stamps in force, in order. */
  function Live(h: Horizon, stamps: seq<real>, now: real): seq<real> {
    if stamps == [] then []
    else
      var last := stamps[|stamps| - 1];
      Live(h, stamps[..|stamps| - 1], now) + if InForce(h, last, now) then [last] else []
  }

  lemma {:induction false} LiveConcat(h: Horizon, a: seq<real>, b: seq<real>, now: real)
    ensures Live(h, a + b, now) == Live(h, a, now) + Live(h, b, now)
    decreases |b|
  {
    if b == [] {
      assert a + b == a;
    } else {
      assert (a + b)[..|a + b| - 1] == a + b[..|b| - 1];
      LiveConcat(h, a, b[..|b| - 1], now);
    }
  }

  /** Dropping what is out of force now loses nothing for any later query. */
  lemma {:induction false} PruneLosesNothing(h: Horizon, stamps: seq<real>, now: real, later: real)
    requires now <= later
    ensures Live(h, Live(h, stamps, now), later) == Live(h, stamps, later)
    decreases |stamps|
  {
    if stamps != [] {
      var init, last := stamps[..|stamps| - 1], stamps[|stamps| - 1];
      PruneLosesNothing(h, init, now, later);
      if InForce(h, last, now) {
        LiveConcat(h, Live(h, init, now), [last], later);
        assert Live(h, [last], later) == if InForce(h, last, later) then [last] else [];
      } else {
        assert Live(h, stamps, now) == Live(h, init, now);
        assert !InForce(h, last, later);
        assert Live(h, stamps, later) == Live(h, init, later);
      }
    }
  }

  lemma {:induction false} FewerLater(h: Horizon, stamps: seq<real>, now: real, later: real)
    requires now <= later
    ensures |Live(h, stamps, later)| <= |Live(h, stamps, now)|
    decreases |stamps|
  {
    if stamps != [] {
      FewerLater(h, stamps[..|stamps| - 1], now, later);
    }
  }

  // ----- many actors sharing one limiter -----

  /** `passed`: the actors that have passed the check and not yet acted. */
  datatype State = State(now: real, stamps: seq<real>, passed: set<nat>)

  datatype Move =
    | Tick(to: real)        // time passes
    | Check(actor: nat)     // the check, which may or may not pass
    | Act(actor: nat)       // the act the check was for: one stamp
    | GiveUp(actor: nat)    // nothing to act on after all, or the actor died

  /** `limit` acts in force at most, and `actors` of them share the limiter. */
  datatype Config = Config(horizon: Horizon, limit: nat, actors: nat)

  predicate Enabled(cfg: Config, s: State, m: Move) {
    match m
    case Tick(to) => s.now <= to
    case Check(actor) => actor < cfg.actors && actor !in s.passed
    case Act(actor) => actor in s.passed
    case GiveUp(actor) => actor in s.passed
  }

  function Next(cfg: Config, s: State, m: Move): State {
    match m
    case Tick(to) => s.(now := to)
    case Check(actor) =>
      if |Live(cfg.horizon, s.stamps, s.now)| < cfg.limit then s.(passed := s.passed + {actor}) else s
    case Act(actor) => s.(stamps := s.stamps + [s.now], passed := s.passed - {actor})
    case GiveUp(actor) => s.(passed := s.passed - {actor})
  }

  function After(cfg: Config, s: State, moves: seq<Move>): State {
    if moves == [] then s
    else Next(cfg, After(cfg, s, moves[..|moves| - 1]), moves[|moves| - 1])
  }

  ghost predicate IsRun(cfg: Config, s: State, moves: seq<Move>) {
    forall k | 0 <= k < |moves| :: Enabled(cfg, After(cfg, s, moves[..k]), moves[k])
  }

  /** The acts whose stamps are in force at `t`, not counting later ones. */
  function InWindow(h: Horizon, stamps: seq<real>, t: real): nat {
    if stamps == [] then 0
    else
      var last := stamps[|stamps| - 1];
      InWindow(h, stamps[..|stamps| - 1], t) + if last <= t && InForce(h, last, t) then 1 else 0
  }

  lemma {:induction false} WindowAtMostLive(h: Horizon, stamps: seq<real>, t: real)
    ensures InWindow(h, stamps, t) <= |Live(h, stamps, t)|
    ensures (forall s | s in stamps :: s <= t) ==> InWindow(h, stamps, t) == |Live(h, stamps, t)|
    decreases |stamps|
  {
    if stamps != [] {
      var init := stamps[..|stamps| - 1];
      WindowAtMostLive(h, init, t);
      assert stamps[|stamps| - 1] in stamps && forall s | s in init :: s in stamps;
    }
  }

  /** One less than the limit plus the number of actors. */
  function Bound(cfg: Config): int {
    cfg.limit + cfg.actors - 1
  }

  ghost predicate Inv(cfg: Config, s: State) {
    && (forall actor | actor in s.passed :: actor < cfg.actors)
    && |s.passed| <= cfg.actors
    && (s.passed != {} ==> cfg.limit >= 1)
    && |Live(cfg.horizon, s.stamps, s.now)| + |s.passed| <= Bound(cfg)
    && forall t: real :: InWindow(cfg.horizon, s.stamps, t) <= Bound(cfg)
  }

  lemma {:induction false} SubrangeSize(s: set<nat>, n: nat)
    requires forall x | x in s :: x < n
    ensures |s| <= n
    decreases n
  {
    if n == 0 {
      assert s == {};
    } else {
      SubrangeSize(s - {n - 1}, n - 1);
      assert n - 1 !in s ==> s - {n - 1} == s;
    }
  }

  lemma MoveKeepsInv(cfg: Config, s: State, m: Move)
    requires Inv(cfg, s) && Enabled(cfg, s, m)
    ensures Inv(cfg, Next(cfg, s, m))
  {
    var h, s' := cfg.horizon, Next(cfg, s, m);
    match m
    case Tick(to) =>
      FewerLater(h, s.stamps, s.now, to);
    case Check(actor) =>
      if s' != s {
        SubrangeSize(s'.passed, cfg.actors);
      }
    case Act(actor) =>
      assert s'.stamps[..|s.stamps|] == s.stamps;
      forall t: real
        ensures InWindow(h, s'.stamps, t) <= Bound(cfg)
      {
        if s.now <= t {
          WindowAtMostLive(h, s'.stamps, t);
          FewerLater(h, s'.stamps, s.now, t);
        }
      }
    case GiveUp(actor) =>
  }

  /** However checks, acts and the clock interleave, at no time t are more than limit + actors - 1 acts
      in force; with a single actor that is the limit itself. */
  lemma {:induction false} BoundHolds(cfg: Config, start: real, moves: seq<Move>)
    requires cfg.limit >= 1 && cfg.actors >= 1
    requires IsRun(cfg, State(start, [], {}), moves)
    ensures Inv(cfg, After(cfg, State(start, [], {}), moves))
    ensures forall t: real :: InWindow(cfg.horizon, After(cfg, State(start, [], {}), moves).stamps, t) <= Bound(cfg)
    decreases |moves|
  {
    var s := State(start, [], {});
    if moves != [] {
      var init := moves[..|moves| - 1];
      forall k | 0 <= k < |init| ensures Enabled(cfg, After(cfg, s, init[..k]), init[k]) {
        assert init[..k] == moves[..k];
      }
      BoundHolds(cfg, start, init);
      MoveKeepsInv(cfg, After(cfg, s, init), moves[|moves| - 1]);
    }
  }

  /** With limit 0 nobody passes the check, so nothing is ever stamped. */
  lemma {:induction false} ZeroLimitNeverActs(cfg: Config, start: real, moves: seq<Move>)
    requires cfg.limit == 0 && IsRun(cfg, State(start, [], {}), moves)
    ensures After(cfg, State(start, [], {}), moves).stamps == [] && After(cfg, State(start, [], {}), moves).passed == {}
    decreases |moves|
  {
    if moves != [] {
      var init := moves[..|moves| - 1];
      forall k | 0 <= k < |init|
        ensures Enabled(cfg, After(cfg, State(start, [], {}), init[..k]), init[k])
      {
        assert init[..k] == moves[..k];
      }
      ZeroLimitNeverActs(cfg, start, init);
    }
  }

  function Actors(lo: nat, hi: nat): (r: set<nat>)
    ensures forall a :: a in r <==> lo <= a < hi
    decreases hi - lo
  {
    if hi <= lo then {} else {lo} + Actors(lo + 1, hi)
  }

  ghost predicate Reaches(cfg: Config, moves: seq<Move>, s: State) {
    IsRun(cfg, State(0.0, [], {}), moves) && After(cfg, State(0.0, [], {}), moves) == s
  }

  /** Act alone until one act short of the limit. */
  lemma FillUp(cfg: Config) returns (moves: seq<Move>, stamps: seq<real>)
    requires cfg.limit >= 1 && cfg.actors >= 1 && (cfg.horizon.Rolling? ==> cfg.horizon.width > 0.0)
    ensures |stamps| == cfg.limit - 1 && AllZero(stamps) && Reaches(cfg, moves, State(0.0, stamps, {}))
  {
    var s := State(0.0, [], {});
    moves := [];
    while |s.stamps| < cfg.limit - 1
      invariant |s.stamps| <= cfg.limit - 1 && s == State(0.0, s.stamps, {}) && AllZero(s.stamps)
      invariant Reaches(cfg, moves, s)
    {
      moves, s := FillOne(cfg, moves, s);
    }
    stamps := s.stamps;
  }

  lemma FillOne(cfg: Config, moves: seq<Move>, s: State) returns (moves': seq<Move>, s': State)
    requires cfg.limit >= 1 && cfg.actors >= 1 && (cfg.horizon.Rolling? ==> cfg.horizon.width > 0.0)
    requires s == State(0.0, s.stamps, {}) && AllZero(s.stamps) && |s.stamps| < cfg.limit - 1 && Reaches(cfg, moves, s)
    ensures s' == State(0.0, s.stamps + [0.0], {}) && AllZero(s'.stamps) && Reaches(cfg, moves', s')
  {
    var s0 := State(0.0, [], {});
    ZerosAreLive(cfg.horizon, s.stamps);
    moves', s' := Play(cfg, s0, moves, Check(0));
    moves', s' := Play(cfg, s0, moves', Act(0));
  }

  /** Then let everybody pass the check. */
  lemma AllPass(cfg: Config) returns (moves: seq<Move>, stamps: seq<real>)
    requires cfg.limit >= 1 && cfg.actors >= 1 && (cfg.horizon.Rolling? ==> cfg.horizon.width > 0.0)
    ensures |stamps| == cfg.limit - 1 && AllZero(stamps)
    ensures Reaches(cfg, moves, State(0.0, stamps, Actors(0, cfg.actors)))
  {
    moves, stamps := FillUp(cfg);
    ZerosAreLive(cfg.horizon, stamps);
    var n := 0;
    assert Actors(0, 0) == {};
    while n < cfg.actors
      invariant n <= cfg.actors && Reaches(cfg, moves, State(0.0, stamps, Actors(0, n)))
    {
      var s;
      moves, s := Play(cfg, State(0.0, [], {}), moves, Check(n));
      assert Actors(0, n) + {n} == Actors(0, n + 1);
      n := n + 1;
    }
  }

  /** No smaller bound is right: for every limit, every number of actors and either horizon there is a
      run that reaches it. */
  lemma BoundIsReached(cfg: Config) returns (moves: seq<Move>)
    requires cfg.limit >= 1 && cfg.actors >= 1 && (cfg.horizon.Rolling? ==> cfg.horizon.width > 0.0)
    ensures var s0 := State(0.0, [], {});
            IsRun(cfg, s0, moves) && InWindow(cfg.horizon, After(cfg, s0, moves).stamps, 0.0) == Bound(cfg)
  {
    var stamps;
    moves, stamps := AllPass(cfg);
    var n := 0;
    while n < cfg.actors
      invariant n <= cfg.actors && Reaches(cfg, moves, State(0.0, stamps, Actors(n, cfg.actors)))
      invariant |stamps| == cfg.limit - 1 + n && AllZero(stamps)
    {
      var s;
      moves, s := Play(cfg, State(0.0, [], {}), moves, Act(n));
      assert Actors(n, cfg.actors) - {n} == Actors(n + 1, cfg.actors);
      stamps := stamps + [0.0];
      n := n + 1;
    }
    ZerosAreLive(cfg.horizon, stamps);
    WindowAtMostLive(cfg.horizon, stamps, 0.0);
  }

  ghost predicate AllZero(stamps: seq<real>) {
    forall t | t in stamps :: t == 0.0
  }

  lemma {:induction false} ZerosAreLive(h: Horizon, stamps: seq<real>)
    requires AllZero(stamps) && (h.Rolling? ==> h.width > 0.0)
    ensures Live(h, stamps, 0.0) == stamps
    decreases |stamps|
  {
    if stamps != [] {
      var init := stamps[..|stamps| - 1];
      assert stamps[|stamps| - 1] in stamps && forall s | s in init :: s in stamps;
      ZerosAreLive(h, init);
    }
  }

  lemma Play(cfg: Config, s0: State, moves: seq<Move>, m: Move) returns (moves': seq<Move>, s': State)
    requires IsRun(cfg, s0, moves) && Enabled(cfg, After(cfg, s0, moves), m)
    ensures moves' == moves + [m] && IsRun(cfg, s0, moves')
    ensures s' == After(cfg, s0, moves') == Next(cfg, After(cfg, s0, moves), m)
  {
    moves' := moves + [m];
    assert moves'[..|moves|] == moves;
    forall k | 0 <= k < |moves'| ensures Enabled(cfg, After(cfg, s0, moves'[..k]), moves'[k]) {
      if k < |moves| {
        assert moves'[..k] == moves[..k];
      }
    }
    s' := After(cfg, s0, moves');
  }

  /** The budget's own wording: in any one UTC day at most limit + actors - 1 rows are stamped. */
  lemma DailyRows(cfg: Config, start: real, moves: seq<Move>, day: int)
    requires cfg.horizon == Daily && cfg.limit >= 1 && cfg.actors >= 1
    requires IsRun(cfg, State(start, [], {}), moves)
    ensures StampedOn(After(cfg, State(start, [], {}), moves).stamps, day) <= Bound(cfg)
  {
    var stamps := After(cfg, State(start, [], {}), moves).stamps;
    BoundHolds(cfg, start, moves);
    LastOfDay(stamps, day);
  }

  function StampedOn(stamps: seq<real>, day: int): nat {
    if stamps == [] then 0
    else StampedOn(stamps[..|stamps| - 1], day) + if DayOf(stamps[|stamps| - 1]) == day then 1 else 0
  }

  /** Some moment of the day sees all of the day's stamps. */
  lemma {:induction false} LastOfDay(stamps: seq<real>, day: int)
    ensures exists t: real :: DayOf(t) == day && InWindow(Daily, stamps, t) == StampedOn(stamps, day)
                              && forall s | s in stamps && DayOf(s) == day :: s <= t
    decreases |stamps|
  {
    if stamps == [] {
      var t := day as real * DAY;
      assert t / DAY == day as real;
      assert DayOf(t) == day && InWindow(Daily, stamps, t) == 0;
    } else {
      var init, last := stamps[..|stamps| - 1], stamps[|stamps| - 1];
      LastOfDay(init, day);
      var t: real :| DayOf(t) == day && InWindow(Daily, init, t) == StampedOn(init, day)
                     && forall s | s in init && DayOf(s) == day :: s <= t;
      if DayOf(last) == day && last > t {
        SameDaySameWindow(init, t, last);
        assert InWindow(Daily, stamps, last) == StampedOn(stamps, day);
        assert forall s | s in stamps :: s in init || s == last;
      } else {
        assert DayOf(last) != day ==> !(last <= t && InForce(Daily, last, t));
        assert InWindow(Daily, stamps, t) == StampedOn(stamps, day);
        assert forall s | s in stamps :: s in init || s == last;
      }
    }
  }

  lemma {:induction false} SameDaySameWindow(stamps: seq<real>, t: real, later: real)
    requires t <= later && DayOf(t) == DayOf(later) && forall s | s in stamps && DayOf(s) == DayOf(t) :: s <= t
    ensures InWindow(Daily, stamps, t) == InWindow(Daily, stamps, later)
    decreases |stamps|
  {
    if stamps != [] {
      var last := stamps[|stamps| - 1];
      SameDaySameWindow(stamps[..|stamps| - 1], t, later);
      assert last in stamps;
      assert last > later ==> DayOf(last) >= DayOf(later);
    }
  }
}
