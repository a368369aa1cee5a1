/**
 The plugin stage of `pipeline.py`: reuse an ok result for the same input, abstain when the day's
 budget is spent, otherwise run the plugin and insert a row.  Other pipelines may insert rows while
 a plugin runs.
 */
module PluginStage {
  import opened Options
  import opened CheckThenAct

  datatype Status = Ok | Abstain | Error

  datatype ResultRow = ResultRow(job: nat, plugin: string, fingerprint: string, status: Status, createdAt: real)

  datatype Plugin = Plugin(name: string, dailyBudget: Option<int>)

  /** Everything outside the stage's control while it handles one plugin. */
  datatype Moment = Moment(
    fingerprint: string,
    checkedAt: real,            // when the budget is read
    identified: Status,         // what identify() answers
    others: seq<ResultRow>,     // rows other pipelines commit meanwhile
    insertedAt: real)           // when the row is stamped

  datatype Origin = Cached | BudgetSpent | Executed

  datatype Outcome = Outcome(plugin: string, origin: Origin, status: Status)

  predicate IsCacheHit(row: ResultRow, job: nat, plugin: string, fingerprint: string) {
    row.job == job && row.plugin == plugin && row.fingerprint == fingerprint && row.status == Ok
  }

  function HasOkRow(rows: seq<ResultRow>, job: nat, plugin: string, fingerprint: string): bool {
    exists row | row in rows :: IsCacheHit(row, job, plugin, fingerprint)
  }

  /** `_plugin_executions_today`. */
  function ExecutionsToday(rows: seq<ResultRow>, plugin: string, now: real): nat {
    if rows == [] then 0
    else
      var last := rows[|rows| - 1];
      ExecutionsToday(rows[..|rows| - 1], plugin, now)
      + if last.plugin == plugin && DayOf(last.createdAt) >= DayOf(now) then 1 else 0
  }

  /** The stamps of one plugin's rows: what the budget limits. */
  function Stamps(rows: seq<ResultRow>, plugin: string): seq<real> {
    if rows == [] then []
    else
      var last := rows[|rows| - 1];
      Stamps(rows[..|rows| - 1], plugin) + if last.plugin == plugin then [last.createdAt] else []
  }

  /** The budget check is the check of `CheckThenAct` over UTC days. */
  lemma {:induction false} BudgetCheckIsDaily(rows: seq<ResultRow>, plugin: string, now: real)
    ensures ExecutionsToday(rows, plugin, now) == |Live(Daily, Stamps(rows, plugin), now)|
    decreases |rows|
  {
    if rows != [] {
      var init, last := rows[..|rows| - 1], rows[|rows| - 1];
      BudgetCheckIsDaily(init, plugin, now);
      if last.plugin == plugin {
        LiveConcat(Daily, Stamps(init, plugin), [last.createdAt], now);
        assert Live(Daily, [last.createdAt], now) == if InForce(Daily, last.createdAt, now) then [last.createdAt] else [];
      } else {
        assert Stamps(rows, plugin) == Stamps(init, plugin);
      }
    }
  }

  function OriginOf(rows: seq<ResultRow>, job: nat, p: Plugin, fingerprint: string, now: real): Origin {
    if HasOkRow(rows, job, p.name, fingerprint) then Cached
    else if p.dailyBudget.Some? && ExecutionsToday(rows, p.name, now) >= p.dailyBudget.value then BudgetSpent
    else Executed
  }

  datatype StageRun = StageRun(rows: seq<ResultRow>, outcomes: seq<Outcome>)

  function One(rows: seq<ResultRow>, job: nat, p: Plugin, m: Moment): StageRun {
    match OriginOf(rows, job, p, m.fingerprint, m.checkedAt)
    case Cached => StageRun(rows, [Outcome(p.name, Cached, Ok)])
    case BudgetSpent => StageRun(rows, [Outcome(p.name, BudgetSpent, Abstain)])
    case Executed =>
      StageRun(rows + m.others + [ResultRow(job, p.name, m.fingerprint, m.identified, m.insertedAt)],
               [Outcome(p.name, Executed, m.identified)])
  }

  function Stage(rows: seq<ResultRow>, job: nat, plugins: seq<Plugin>, moments: seq<Moment>): StageRun
    requires |plugins| == |moments|
  {
    if plugins == [] then StageRun(rows, [])
    else
      var n := |plugins| - 1;
      var before := Stage(rows, job, plugins[..n], moments[..n]);
      var last := One(before.rows, job, plugins[n], moments[n]);
      StageRun(last.rows, before.outcomes + last.outcomes)
  }

  class ResultStore {
    var rows: seq<ResultRow>

    constructor ()
      ensures rows == []
    {
      rows := [];
    }

    /** The two queries before a plugin runs: is there an ok row to reuse, and is the budget spent? */
    method CheckPlugin(job: nat, p: Plugin, fingerprint: string, now: real) returns (origin: Origin)
      ensures origin == OriginOf(rows, job, p, fingerprint, now)
    {
      var cached := exists row | row in rows :: IsCacheHit(row, job, p.name, fingerprint);
      if cached {
        return Cached;
      } else if p.dailyBudget.Some? && ExecutionsToday(rows, p.name, now) >= p.dailyBudget.value {
        return BudgetSpent;
      } else {
        return Executed;
      }
    }

    /** One committed row, stamped by the database as it is inserted. */
    method InsertRow(job: nat, plugin: string, fingerprint: string, status: Status, now: real)
      modifies this
      ensures rows == old(rows) + [ResultRow(job, plugin, fingerprint, status, now)]
    {
      rows := rows + [ResultRow(job, plugin, fingerprint, status, now)];
    }

    method RunPluginStage(job: nat, plugins: seq<Plugin>, moments: seq<Moment>) returns (outcomes: seq<Outcome>)
      requires |plugins| == |moments|
      modifies this
      ensures StageRun(rows, outcomes) == Stage(old(rows), job, plugins, moments)
    {
      outcomes := [];
      for k := 0 to |plugins|
        invariant StageRun(rows, outcomes) == Stage(old(rows), job, plugins[..k], moments[..k])
      {
        assert plugins[..k + 1][..k] == plugins[..k] && moments[..k + 1][..k] == moments[..k];
        var p, m := plugins[k], moments[k];
        var origin := CheckPlugin(job, p, m.fingerprint, m.checkedAt);
        match origin
        case Cached =>
          outcomes := outcomes + [Outcome(p.name, Cached, Ok)];
        case BudgetSpent =>
          outcomes := outcomes + [Outcome(p.name, BudgetSpent, Abstain)];
        case Executed =>
          rows := rows + m.others;
          InsertRow(job, p.name, m.fingerprint, m.identified, m.insertedAt);
          outcomes := outcomes + [Outcome(p.name, Executed, m.identified)];
      }
      assert plugins[..|plugins|] == plugins && moments[..|moments|] == moments;
    }
  }

  function CountRows(rows: seq<ResultRow>, job: nat, plugin: string): nat {
    if rows == [] then 0
    else CountRows(rows[..|rows| - 1], job, plugin)
         + if rows[|rows| - 1].job == job && rows[|rows| - 1].plugin == plugin then 1 else 0
  }

  lemma {:induction false} CountRowsConcat(a: seq<ResultRow>, b: seq<ResultRow>, job: nat, plugin: string)
    ensures CountRows(a + b, job, plugin) == CountRows(a, job, plugin) + CountRows(b, job, plugin)
    decreases |b|
  {
    if b == [] {
      assert a + b == a;
    } else {
      assert (a + b)[..|a + b| - 1] == a + b[..|b| - 1];
      CountRowsConcat(a, b[..|b| - 1], job, plugin);
    }
  }

  function CountExecuted(outcomes: seq<Outcome>, plugin: string): nat {
    if outcomes == [] then 0
    else CountExecuted(outcomes[..|outcomes| - 1], plugin)
         + if outcomes[|outcomes| - 1].plugin == plugin && outcomes[|outcomes| - 1].origin == Executed then 1 else 0
  }

  /** Only executions count: one outcome per plugin, in order, and the job gains exactly one row per
      executed plugin; cache hits and synthesized abstains leave no row for the budget to see. */
  lemma {:induction false} OnlyExecutionsCount(rows: seq<ResultRow>, job: nat, plugins: seq<Plugin>, moments: seq<Moment>, plugin: string)
    requires |plugins| == |moments|
    requires forall m | m in moments :: forall row | row in m.others :: row.job != job
    ensures var run := Stage(rows, job, plugins, moments);
            && |run.outcomes| == |plugins|
            && (forall k | 0 <= k < |plugins| :: run.outcomes[k].plugin == plugins[k].name)
            && CountRows(run.rows, job, plugin) == CountRows(rows, job, plugin) + CountExecuted(run.outcomes, plugin)
    decreases |plugins|
  {
    if plugins != [] {
      var n := |plugins| - 1;
      var before := Stage(rows, job, plugins[..n], moments[..n]);
      var m := moments[n];
      OnlyExecutionsCount(rows, job, plugins[..n], moments[..n], plugin);
      assert m in moments;
      var last := One(before.rows, job, plugins[n], m);
      assert Stage(rows, job, plugins, moments) == StageRun(last.rows, before.outcomes + last.outcomes);
      OneCounts(before, job, plugins[n], m, plugin);
    }
  }

  lemma OneCounts(before: StageRun, job: nat, p: Plugin, m: Moment, plugin: string)
    requires forall row | row in m.others :: row.job != job
    ensures var last := One(before.rows, job, p, m);
            && |last.outcomes| == 1 && last.outcomes[0].plugin == p.name
            && CountRows(last.rows, job, plugin) - CountRows(before.rows, job, plugin)
               == CountExecuted(before.outcomes + last.outcomes, plugin) - CountExecuted(before.outcomes, plugin)
  {
    var last := One(before.rows, job, p, m);
    assert (before.outcomes + last.outcomes)[..|before.outcomes|] == before.outcomes;
    if OriginOf(before.rows, job, p, m.fingerprint, m.checkedAt) == Executed {
      var row := ResultRow(job, p.name, m.fingerprint, m.identified, m.insertedAt);
      CountRowsConcat(before.rows + m.others, [row], job, plugin);
      CountRowsConcat(before.rows, m.others, job, plugin);
      NoRowsOf(m.others, job, plugin);
      assert [row][..0] == [];
    }
  }

  lemma {:induction false} NoRowsOf(rows: seq<ResultRow>, job: nat, plugin: string)
    requires forall row | row in rows :: row.job != job
    ensures CountRows(rows, job, plugin) == 0
    decreases |rows|
  {
    if rows != [] {
      var init := rows[..|rows| - 1];
      assert rows[|rows| - 1] in rows && forall row | row in init :: row in rows;
      NoRowsOf(init, job, plugin);
    }
  }
}
