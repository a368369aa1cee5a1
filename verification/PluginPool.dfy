/**
 Several plugin stages at once on one `plugin_results` table.  Each stage is at one plugin at a time:
 it looks for a cached result and reads the budget, awaits the plugin, and commits the row.  Per plugin
 this is the limiter of `CheckThenAct`, so the daily budget bounds the rows of the table.
 */
module PluginPool {
  import opened Options
  import opened CheckThenAct
  import opened PluginStage

  /** What a stage awaits. */
  datatype Running = Running(job: nat, plugin: string, fingerprint: string)

  datatype Pool = Pool(now: real, rows: seq<ResultRow>, running: map<nat, Running>)

  datatype Step =
    | Wait(to: real)                                                      // time passes
    | Reach(stage: nat, job: nat, plugin: string, fingerprint: string)    // a stage comes to a plugin
    | Finish(stage: nat, status: Status)                                  // identify() is over: the row
    | Die(stage: nat)                                                     // the process went down meanwhile

  /** How many stages there are, and the configured budgets. */
  datatype Setup = Setup(stages: nat, budgets: map<string, int>)

  function PluginOf(setup: Setup, name: string): Plugin {
    Plugin(name, if name in setup.budgets then Some(setup.budgets[name]) else None)
  }

  predicate Can(setup: Setup, pool: Pool, step: Step) {
    match step
    case Wait(to) => pool.now <= to
    case Reach(stage, _, _, _) => stage < setup.stages && stage !in pool.running
    case Finish(stage, _) => stage in pool.running
    case Die(stage) => stage in pool.running
  }

  function NextPool(setup: Setup, pool: Pool, step: Step): Pool
    requires Can(setup, pool, step)
  {
    match step
    case Wait(to) => pool.(now := to)
    case Reach(stage, job, plugin, fingerprint) =>
      if OriginOf(pool.rows, job, PluginOf(setup, plugin), fingerprint, pool.now) == Executed
      then pool.(running := pool.running[stage := Running(job, plugin, fingerprint)])
      else pool
    case Finish(stage, status) =>
      var r := pool.running[stage];
      pool.(rows := pool.rows + [ResultRow(r.job, r.plugin, r.fingerprint, status, pool.now)],
            running := pool.running - {stage})
    case Die(stage) => pool.(running := pool.running - {stage})
  }

  predicate CanAll(setup: Setup, pool: Pool, steps: seq<Step>)
    decreases |steps|, 0
  {
    steps == []
    || (CanAll(setup, pool, steps[..|steps| - 1])
        && Can(setup, AfterAll(setup, pool, steps[..|steps| - 1]), steps[|steps| - 1]))
  }

  function AfterAll(setup: Setup, pool: Pool, steps: seq<Step>): Pool
    requires CanAll(setup, pool, steps)
    decreases |steps|, 1
  {
    if steps == [] then pool
    else NextPool(setup, AfterAll(setup, pool, steps[..|steps| - 1]), steps[|steps| - 1])
  }

  // ----- the pool as one plugin's limiter sees it -----

  /** The stages that await this plugin. */
  function Awaiting(pool: Pool, plugin: string): set<nat> {
    set stage | stage in pool.running && pool.running[stage].plugin == plugin
  }

  function Seen(pool: Pool, plugin: string): State {
    State(pool.now, Stamps(pool.rows, plugin), Awaiting(pool, plugin))
  }

  /** A budget below 0 is as good as 0. */
  function LimiterOf(setup: Setup, plugin: string): Config
    requires plugin in setup.budgets
  {
    var budget := setup.budgets[plugin];
    Config(Daily, if budget < 0 then 0 else budget, setup.stages)
  }

  /** The limiter's part in a step: nothing for another plugin, and no check on a cache hit. */
  function Part(pool: Pool, plugin: string, step: Step): seq<Move> {
    match step
    case Wait(to) => [Tick(to)]
    case Reach(stage, job, name, fingerprint) =>
      if name == plugin && !HasOkRow(pool.rows, job, name, fingerprint) then [Check(stage)] else []
    case Finish(stage, _) => if stage in Awaiting(pool, plugin) then [Act(stage)] else []
    case Die(stage) => if stage in Awaiting(pool, plugin) then [GiveUp(stage)] else []
  }

  /** A step and the limiter's part in it. */
  ghost predicate Agree(setup: Setup, pool: Pool, plugin: string, step: Step)
    requires plugin in setup.budgets && Can(setup, pool, step)
  {
    var part, seen, next := Part(pool, plugin, step), Seen(pool, plugin), NextPool(setup, pool, step);
    if part == [] then Seen(next, plugin) == seen
    else |part| == 1 && Enabled(LimiterOf(setup, plugin), seen, part[0])
         && Seen(next, plugin) == Next(LimiterOf(setup, plugin), seen, part[0])
  }

  lemma ReachIsCheck(setup: Setup, pool: Pool, plugin: string, step: Step)
    requires step.Reach? && plugin in setup.budgets && Can(setup, pool, step)
    ensures Agree(setup, pool, plugin, step)
  {
    var next := NextPool(setup, pool, step);
    BudgetCheckIsDaily(pool.rows, step.plugin, pool.now);
    if next != pool {
      assert Awaiting(next, plugin) == Awaiting(pool, plugin) + if step.plugin == plugin then {step.stage} else {};
    }
  }

  lemma LeavingIsActing(setup: Setup, pool: Pool, plugin: string, step: Step)
    requires (step.Finish? || step.Die?) && plugin in setup.budgets && Can(setup, pool, step)
    ensures Agree(setup, pool, plugin, step)
  {
    var next := NextPool(setup, pool, step);
    assert Awaiting(next, plugin) == Awaiting(pool, plugin) - {step.stage};
    if step.Finish? {
      assert next.rows[..|pool.rows|] == pool.rows;
    }
  }

  lemma EveryStepAgrees(setup: Setup, pool: Pool, plugin: string, step: Step)
    requires plugin in setup.budgets && Can(setup, pool, step)
    ensures Agree(setup, pool, plugin, step)
  {
    match step
    case Wait(_) =>
    case Reach(_, _, _, _) => ReachIsCheck(setup, pool, plugin, step);
    case Finish(_, _) => LeavingIsActing(setup, pool, plugin, step);
    case Die(_) => LeavingIsActing(setup, pool, plugin, step);
  }

  lemma StepExtends(setup: Setup, start: State, moves: seq<Move>, before: Pool, plugin: string, step: Step)
    requires plugin in setup.budgets && Can(setup, before, step)
    requires IsRun(LimiterOf(setup, plugin), start, moves)
    requires After(LimiterOf(setup, plugin), start, moves) == Seen(before, plugin)
    ensures var cfg, longer := LimiterOf(setup, plugin), moves + Part(before, plugin, step);
            IsRun(cfg, start, longer) && After(cfg, start, longer) == Seen(NextPool(setup, before, step), plugin)
  {
    var part := Part(before, plugin, step);
    EveryStepAgrees(setup, before, plugin, step);
    if part == [] {
      assert moves + part == moves;
    } else {
      assert part == [part[0]];
      var _, _ := Play(LimiterOf(setup, plugin), start, moves, part[0]);
    }
  }

  function Parts(setup: Setup, pool: Pool, plugin: string, steps: seq<Step>): seq<Move>
    requires CanAll(setup, pool, steps)
    decreases |steps|
  {
    if steps == [] then []
    else
      var init := steps[..|steps| - 1];
      Parts(setup, pool, plugin, init) + Part(AfterAll(setup, pool, init), plugin, steps[|steps| - 1])
  }

  /** Any run of the pool is, for each plugin with a budget, a run of its limiter: the limiter's stamps
      are the stamps of the plugin's rows. */
  lemma {:induction false} PoolRefinesLimiter(setup: Setup, pool: Pool, plugin: string, steps: seq<Step>)
    requires plugin in setup.budgets && CanAll(setup, pool, steps)
    ensures var cfg, moves := LimiterOf(setup, plugin), Parts(setup, pool, plugin, steps);
            IsRun(cfg, Seen(pool, plugin), moves)
            && After(cfg, Seen(pool, plugin), moves) == Seen(AfterAll(setup, pool, steps), plugin)
    decreases |steps|
  {
    if steps != [] {
      var init, last := steps[..|steps| - 1], steps[|steps| - 1];
      PoolRefinesLimiter(setup, pool, plugin, init);
      StepExtends(setup, Seen(pool, plugin), Parts(setup, pool, plugin, init), AfterAll(setup, pool, init), plugin, last);
    }
  }

  /** The plugin's rows stamped on one UTC day. */
  function RowsOn(rows: seq<ResultRow>, plugin: string, day: int): nat {
    if rows == [] then 0
    else
      var last := rows[|rows| - 1];
      RowsOn(rows[..|rows| - 1], plugin, day) + if last.plugin == plugin && DayOf(last.createdAt) == day then 1 else 0
  }

  lemma {:induction false} RowsAreStamps(rows: seq<ResultRow>, plugin: string, day: int)
    ensures RowsOn(rows, plugin, day) == StampedOn(Stamps(rows, plugin), day)
    decreases |rows|
  {
    if rows != [] {
      var init, last := rows[..|rows| - 1], rows[|rows| - 1];
      RowsAreStamps(init, plugin, day);
      assert last.plugin != plugin ==> Stamps(rows, plugin) == Stamps(init, plugin);
      if last.plugin == plugin {
        assert Stamps(rows, plugin)[..|Stamps(init, plugin)|] == Stamps(init, plugin);
      }
    }
  }

  function Fresh(start: real): Pool {
    Pool(start, [], map[])
  }

  /** However the stages interleave, wait and die: a plugin gets at most budget + stages - 1 rows on any
      UTC day, the budget itself with a single stage, and none with a budget of 0 or less. */
  lemma DailyBudgetBoundsRows(setup: Setup, start: real, steps: seq<Step>, plugin: string, day: int)
    requires CanAll(setup, Fresh(start), steps)
    requires plugin in setup.budgets && setup.stages >= 1
    ensures var rows, budget := AfterAll(setup, Fresh(start), steps).rows, setup.budgets[plugin];
            RowsOn(rows, plugin, day) <= if budget <= 0 then 0 else budget + setup.stages - 1
  {
    var cfg, moves := LimiterOf(setup, plugin), Parts(setup, Fresh(start), plugin, steps);
    assert Seen(Fresh(start), plugin) == State(start, [], {});
    PoolRefinesLimiter(setup, Fresh(start), plugin, steps);
    RowsAreStamps(AfterAll(setup, Fresh(start), steps).rows, plugin, day);
    if cfg.limit == 0 {
      ZeroLimitNeverActs(cfg, start, moves);
    } else {
      DailyRows(cfg, start, moves, day);
    }
  }

  // ----- the pool and the single stage -----

  /** Only its own `Finish` or `Die` takes a stage away from the plugin it awaits. */
  predicate LeavesAlone(stage: nat, steps: seq<Step>) {
    forall step | step in steps :: step != Die(stage) && !(step.Finish? && step.stage == stage)
  }

  lemma {:induction false} OthersOnlyAppend(setup: Setup, pool: Pool, stage: nat, steps: seq<Step>)
    requires CanAll(setup, pool, steps) && stage in pool.running && LeavesAlone(stage, steps)
    ensures var after := AfterAll(setup, pool, steps);
            pool.rows <= after.rows && stage in after.running && after.running[stage] == pool.running[stage]
    decreases |steps|
  {
    if steps != [] {
      var init := steps[..|steps| - 1];
      assert steps[|steps| - 1] in steps && forall step | step in init :: step in steps;
      OthersOnlyAppend(setup, pool, stage, init);
    }
  }

  /** A stage among others does what the single stage does: from reaching a plugin to its row, whatever
      the others do meanwhile is the `others` of `One`. */
  lemma ReachToFinishIsOne(setup: Setup, pool: Pool, reach: Step, between: seq<Step>, status: Status)
    requires reach.Reach? && Can(setup, pool, reach)
    requires CanAll(setup, NextPool(setup, pool, reach), between) && LeavesAlone(reach.stage, between)
    requires OriginOf(pool.rows, reach.job, PluginOf(setup, reach.plugin), reach.fingerprint, pool.now) == Executed
    ensures var later := AfterAll(setup, NextPool(setup, pool, reach), between);
            && pool.rows <= later.rows && Can(setup, later, Finish(reach.stage, status))
            && NextPool(setup, later, Finish(reach.stage, status)).rows
               == One(pool.rows, reach.job, PluginOf(setup, reach.plugin),
                      Moment(reach.fingerprint, pool.now, status, later.rows[|pool.rows|..], later.now)).rows
  {
    var later := AfterAll(setup, NextPool(setup, pool, reach), between);
    OthersOnlyAppend(setup, NextPool(setup, pool, reach), reach.stage, between);
    assert pool.rows + later.rows[|pool.rows|..] == later.rows;
  }

  lemma {:induction false} PrefixCan(setup: Setup, pool: Pool, steps: seq<Step>, k: nat)
    requires k <= |steps| && CanAll(setup, pool, steps)
    ensures CanAll(setup, pool, steps[..k])
    decreases |steps|
  {
    if k == |steps| {
      assert steps[..k] == steps;
    } else {
      assert steps[..|steps| - 1][..k] == steps[..k];
      PrefixCan(setup, pool, steps[..|steps| - 1], k);
    }
  }

  /** The stages on their shared table, interleaved by `steps`. */
  method DriveStages(setup: Setup, start: real, steps: seq<Step>) returns (store: ResultStore)
    requires CanAll(setup, Fresh(start), steps)
    ensures fresh(store) && store.rows == AfterAll(setup, Fresh(start), steps).rows
  {
    store := new ResultStore();
    var now, running: map<nat, Running> := start, map[];
    for k := 0 to |steps|
      invariant fresh(store)
      invariant CanAll(setup, Fresh(start), steps[..k])
      invariant AfterAll(setup, Fresh(start), steps[..k]) == Pool(now, store.rows, running)
    {
      PrefixCan(setup, Fresh(start), steps, k + 1);
      assert steps[..k + 1][..k] == steps[..k];
      match steps[k]
      case Wait(to) =>
        now := to;
      case Reach(stage, job, plugin, fingerprint) =>
        var origin := store.CheckPlugin(job, PluginOf(setup, plugin), fingerprint, now);
        if origin == Executed {
          running := running[stage := Running(job, plugin, fingerprint)];
        }
      case Finish(stage, status) =>
        var r := running[stage];
        store.InsertRow(r.job, r.plugin, r.fingerprint, status, now);
        running := running - {stage};
      case Die(stage) =>
        running := running - {stage};
    }
    assert steps[..|steps|] == steps;
  }
}
