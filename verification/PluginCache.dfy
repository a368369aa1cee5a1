/** When the plugin stage reuses a result, abstains or runs the plugin. */
module PluginCache {
  import opened Options
  import opened CheckThenAct
  import opened PluginStage

  /** An ok row of this very job, plugin and input. */
  predicate Reusable(rows: seq<ResultRow>, job: nat, plugin: string, fingerprint: string) {
    exists r | r in rows :: r.job == job && r.plugin == plugin && r.fingerprint == fingerprint && r.status == Ok
  }

  /** The plugin's rows, of any job, stamped on this UTC day or later. */
  ghost function RowsToday(rows: seq<ResultRow>, plugin: string, now: real): set<nat> {
    set i | 0 <= i < |rows| && rows[i].plugin == plugin && DayOf(rows[i].createdAt) >= DayOf(now)
  }

  lemma {:induction false} TodayCounts(rows: seq<ResultRow>, plugin: string, now: real)
    ensures ExecutionsToday(rows, plugin, now) == |RowsToday(rows, plugin, now)|
    decreases |rows|
  {
    if rows != [] {
      var n := |rows| - 1;
      TodayCounts(rows[..n], plugin, now);
      var before := RowsToday(rows[..n], plugin, now);
      if rows[n].plugin == plugin && DayOf(rows[n].createdAt) >= DayOf(now) {
        assert RowsToday(rows, plugin, now) == before + {n};
      } else {
        assert RowsToday(rows, plugin, now) == before;
      }
    }
  }

  /** The three ways, exactly: an ok row of the same job, plugin and input is reused; otherwise a plugin that has
      no budget, or fewer rows today than its budget, runs; otherwise it abstains. */
  lemma OriginIff(rows: seq<ResultRow>, job: nat, p: Plugin, fingerprint: string, now: real)
    ensures var origin := OriginOf(rows, job, p, fingerprint, now);
            && (origin == Cached <==>
                  exists r :: r in rows && r.job == job && r.plugin == p.name && r.fingerprint == fingerprint && r.status == Ok)
            && (origin == Executed <==>
                  && !Reusable(rows, job, p.name, fingerprint)
                  && (p.dailyBudget.Some? ==> |RowsToday(rows, p.name, now)| < p.dailyBudget.value))
  {
    TodayCounts(rows, p.name, now);
    assert HasOkRow(rows, job, p.name, fingerprint) <==> Reusable(rows, job, p.name, fingerprint);
  }

  /** In a stage: outcome k is a reuse exactly if an ok row for the input of its own moment is there by then, so
      a plugin whose input has changed is never answered from a row of the old input. */
  lemma {:induction false} StageReusesIff(rows: seq<ResultRow>, job: nat, plugins: seq<Plugin>, moments: seq<Moment>, k: nat)
    requires |plugins| == |moments| && k < |plugins|
    ensures var run, there := Stage(rows, job, plugins, moments), Stage(rows, job, plugins[..k], moments[..k]).rows;
            && |run.outcomes| == |plugins|
            && (run.outcomes[k].origin == Cached <==> Reusable(there, job, plugins[k].name, moments[k].fingerprint))
            && (run.outcomes[k].origin == Cached ==> run.outcomes[k].status == Ok)
            && (run.outcomes[k].origin == BudgetSpent ==> run.outcomes[k].status == Abstain)
            && (run.outcomes[k].origin == Executed ==> run.outcomes[k].status == moments[k].identified)
    decreases |plugins|
  {
    var n := |plugins| - 1;
    OneOutcomeEach(rows, job, plugins[..n], moments[..n]);
    StageSnoc(rows, job, plugins, moments);
    if k < n {
      assert plugins[..n][..k] == plugins[..k] && moments[..n][..k] == moments[..k];
      StageReusesIff(rows, job, plugins[..n], moments[..n], k);
    } else {
      OriginIff(Stage(rows, job, plugins[..n], moments[..n]).rows, job, plugins[n], moments[n].fingerprint, moments[n].checkedAt);
    }
  }

  lemma StageSnoc(rows: seq<ResultRow>, job: nat, plugins: seq<Plugin>, moments: seq<Moment>)
    requires |plugins| == |moments| > 0
    ensures var n := |plugins| - 1;
            var before := Stage(rows, job, plugins[..n], moments[..n]);
            Stage(rows, job, plugins, moments).outcomes == before.outcomes + One(before.rows, job, plugins[n], moments[n]).outcomes
            && |One(before.rows, job, plugins[n], moments[n]).outcomes| == 1
  {
  }

  lemma {:induction false} OneOutcomeEach(rows: seq<ResultRow>, job: nat, plugins: seq<Plugin>, moments: seq<Moment>)
    requires |plugins| == |moments|
    ensures |Stage(rows, job, plugins, moments).outcomes| == |plugins|
    decreases |plugins|
  {
    if plugins != [] {
      OneOutcomeEach(rows, job, plugins[..|plugins| - 1], moments[..|moments| - 1]);
    }
  }

  /** What an execution leaves behind for later: if it was ok, every later stage of the job reuses it for the same
      input; otherwise it is never reused. */
  lemma OkIsReused(rows: seq<ResultRow>, job: nat, p: Plugin, m: Moment, more: seq<ResultRow>, now: real)
    requires OriginOf(rows, job, p, m.fingerprint, m.checkedAt) == Executed
    ensures m.identified == Ok ==> OriginOf(One(rows, job, p, m).rows + more, job, p, m.fingerprint, now) == Cached
    ensures m.identified != Ok && !Reusable(m.others + more, job, p.name, m.fingerprint) ==>
              OriginOf(One(rows, job, p, m).rows + more, job, p, m.fingerprint, now) != Cached
  {
    var row := ResultRow(job, p.name, m.fingerprint, m.identified, m.insertedAt);
    var all := One(rows, job, p, m).rows + more;
    OriginIff(rows, job, p, m.fingerprint, m.checkedAt);
    OriginIff(all, job, p, m.fingerprint, now);
    assert all[|rows + m.others|] == row;
    assert row in all;
    forall r | r in all ensures r in rows || r in m.others + more || r == row {
    }
  }

  /** And it leaves exactly one row, of its own job, plugin and input, after those of the others. */
  lemma ExecutionLeavesOneRow(rows: seq<ResultRow>, job: nat, p: Plugin, m: Moment)
    ensures var after := One(rows, job, p, m).rows;
            if !Reusable(rows, job, p.name, m.fingerprint)
               && (p.dailyBudget.Some? ==> |RowsToday(rows, p.name, m.checkedAt)| < p.dailyBudget.value)
            then |after| == |rows| + |m.others| + 1 && rows + m.others <= after
                 && after[|after| - 1] == ResultRow(job, p.name, m.fingerprint, m.identified, m.insertedAt)
            else after == rows
  {
    OriginIff(rows, job, p, m.fingerprint, m.checkedAt);
  }
}
