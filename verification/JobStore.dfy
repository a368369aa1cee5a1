/**
 `jobs.py` in its own imperative form: a store whose table the functions update, and the
 caller's cached `Job`, which they update too once the database write has succeeded.
 Each method is tied to the atomic step `JobQueue.Apply`.
 */
module JobStores {
  import opened Options
  import opened JobQueue

  /** A loaded ORM object: the id and whatever the row held when it was read. */
  class Job {
    const id: nat
    var row: Row

    constructor (id: nat, row: Row)
      ensures this.id == id && this.row == row
    {
      this.id := id;
      this.row := row;
    }
  }

  class JobStore {
    var table: Table

    constructor ()
      ensures table == map[]
    {
      table := map[];
    }

    /** `UPDATE jobs SET ... WHERE id = :id AND ...`, answering the row count. */
    method UpdateWhere(id: nat, where: Row -> bool, values: Row -> Row) returns (rowcount: nat)
      modifies this
      ensures rowcount == if id in old(table) && where(old(table)[id]) then 1 else 0
      ensures table == if rowcount == 1 then old(table)[id := values(old(table)[id])] else old(table)
    {
      rowcount := 0;
      if id in table && where(table[id]) {
        table := table[id := values(table[id])];
        rowcount := 1;
      }
    }

    method CreateJob(id: nat, parked: bool, now: int) returns (job: Job)
      requires id !in table
      modifies this
      ensures (table, Done) == Apply(old(table), Create(id, parked, now))
      ensures fresh(job) && job.id == id && job.row == table[id]
    {
      job := new Job(id, Row(if parked then Hold else Pending, 0, None, None, None, now));
      table := table[id := job.row];
    }

    /** The retry loop.  `others[k]` is what other sessions commit between the k-th SELECT and
        its UPDATE. */
    method ClaimNext(worker: string, others: seq<seq<Op>>, clock: nat -> int)
      returns (won: Option<Job>, retries: nat)
      modifies this
      ensures var run := ClaimNextRun(old(table), worker, others, clock, 0);
              && table == run.table && retries == run.retries
              && (won.Some? <==> run.won.Some?)
              && (won.Some? ==> fresh(won.value) && won.value.id == run.won.value
                                && won.value.id in table && won.value.row == table[won.value.id])
    {
      var round := 0;
      retries := 0;
      while true
        invariant 0 <= round <= |others| && round == retries
        invariant var run := ClaimNextRun(old(table), worker, others, clock, 0);
                  var rest := ClaimNextRun(table, worker, others, clock, round);
                  run == rest.(retries := rest.retries + round)
        decreases |others| - round
      {
        var candidate := Oldest(table);
        if candidate.None? {
          return None, retries;
        }
        var id := candidate.value;
        var job := new Job(id, table[id]);
        if round < |others| {
          RunKeepsIds(table, others[round], id);
          table := Run(table, others[round]);
        }
        var now := clock(round);
        label Update:
        var rowcount := UpdateWhere(id, (r: Row) => r.status == Pending,
          (r: Row) => r.(status := Active, claimedBy := Some(worker), claimedAt := Some(now), heartbeatAt := Some(now)));
        if rowcount == 1 {
          job.row := table[id];
          return Some(job), retries;
        }
        round, retries := round + 1, retries + 1;
      }
    }

    method Heartbeat(job: Job, worker: string, now: int) returns (r: Outcome)
      modifies this, job
      ensures (table, r) == Apply(old(table), JobQueue.Heartbeat(job.id, worker, now))
      ensures job.row == if r == Done then old(job.row).(heartbeatAt := Some(now)) else old(job.row)
    {
      var rowcount := UpdateWhere(job.id, (r: Row) => r.status == Active && r.claimedBy == Some(worker),
        (r: Row) => r.(heartbeatAt := Some(now)));
      if rowcount == 0 {
        return LeaseLost;
      }
      job.row := job.row.(heartbeatAt := Some(now));
      return Done;
    }

    method Release(job: Job, newStatus: Status, worker: string) returns (r: Outcome)
      modifies this, job
      ensures (table, r) == Apply(old(table), JobQueue.Release(job.id, old(job.row.status), newStatus, worker))
      ensures job.row == if r == Done then Unleased(old(job.row), newStatus) else old(job.row)
    {
      if newStatus !in ValidTransitions(job.row.status) {
        return InvalidTransition;
      }
      var rowcount := UpdateWhere(job.id, (r: Row) => r.status == Active && r.claimedBy == Some(worker),
        (r: Row) => r.(status := newStatus, claimedBy := None, claimedAt := None, heartbeatAt := None));
      if rowcount == 0 {
        return LeaseLost;
      }
      job.row := job.row.(status := newStatus, claimedBy := None, claimedAt := None, heartbeatAt := None);
      return Done;
    }

    /** One SELECT of the stale jobs, then a loop that requeues or fails each, then one commit. */
    method ReapStale(cutoff: int) returns (reaped: nat)
      modifies this
      ensures table == ReapAll(old(table), cutoff)
      ensures reaped == |set id | id in old(table) && IsStale(old(table)[id], cutoff)|
    {
      var stale := set id | id in table && IsStale(table[id], cutoff);
      reaped := |stale|;
      var todo := stale;
      while todo != {}
        invariant todo <= stale && table.Keys == old(table).Keys
        invariant forall id | id in table ::
                    table[id] == if id in stale - todo then Reaped(old(table)[id]) else old(table)[id]
        decreases |todo|
      {
        var id :| id in todo;
        var job := table[id];
        job := job.(attempts := job.attempts + 1);
        var target := if job.attempts > MAX_ATTEMPTS then Error else Pending;
        assert target in ValidTransitions(job.status);
        job := job.(status := target, claimedBy := None, claimedAt := None, heartbeatAt := None);
        table := table[id := job];
        todo := todo - {id};
      }
      forall id | id in table ensures table[id] == ReapAll(old(table), cutoff)[id] {
        assert id in stale <==> IsStale(old(table)[id], cutoff);
      }
      assert table.Keys == ReapAll(old(table), cutoff).Keys;
    }

    method Park(job: Job) returns (r: Outcome)
      modifies this, job
      ensures (table, r) == Apply(old(table), JobQueue.Park(job.id, old(job.row.status)))
      ensures job.row == if r == Done then old(job.row).(status := Hold) else old(job.row)
    {
      if Hold !in ValidTransitions(job.row.status) {
        return InvalidTransition;
      }
      var rowcount := UpdateWhere(job.id, (r: Row) => r.status == Pending, (r: Row) => r.(status := Hold));
      if rowcount == 0 {
        return InvalidTransition;
      }
      job.row := job.row.(status := Hold);
      return Done;
    }

    method Unpark(job: Job) returns (r: Outcome)
      modifies this, job
      ensures (table, r) == Apply(old(table), JobQueue.Unpark(job.id, old(job.row.status)))
      ensures job.row == if r == Done then old(job.row).(status := Pending) else old(job.row)
    {
      if Pending !in ValidTransitions(job.row.status) {
        return InvalidTransition;
      }
      var rowcount := UpdateWhere(job.id, (r: Row) => r.status == Hold, (r: Row) => r.(status := Pending));
      if rowcount == 0 {
        return InvalidTransition;
      }
      job.row := job.row.(status := Pending);
      return Done;
    }

    method Requeue(job: Job) returns (r: Outcome)
      modifies this, job
      ensures (table, r) == Apply(old(table), JobQueue.Requeue(job.id, old(job.row.status)))
      ensures job.row == if r == Done then Unleased(old(job.row), Pending).(attempts := 0) else old(job.row)
    {
      var fromStatus := job.row.status;
      if Pending !in ValidTransitions(fromStatus) {
        return InvalidTransition;
      }
      var rowcount := UpdateWhere(job.id, (r: Row) => r.status == fromStatus,
        (r: Row) => r.(status := Pending, attempts := 0, claimedBy := None, claimedAt := None, heartbeatAt := None));
      if rowcount == 0 {
        return InvalidTransition;
      }
      job.row := job.row.(status := Pending, attempts := 0, claimedBy := None, claimedAt := None, heartbeatAt := None);
      return Done;
    }

    method ClaimForApi(job: Job, worker: string, fromStatuses: set<Status>, now: int) returns (r: Outcome)
      modifies this, job
      ensures (table, r) ==
              Apply(old(table), JobQueue.ClaimForApi(job.id, old(job.row.status), worker, fromStatuses, now))
      ensures job.row == if r == Done then Leased(old(job.row), worker, now) else old(job.row)
    {
      if Active !in ValidTransitions(job.row.status) {
        return InvalidTransition;
      }
      var rowcount := UpdateWhere(job.id, (r: Row) => r.status in fromStatuses,
        (r: Row) => r.(status := Active, claimedBy := Some(worker), claimedAt := Some(now), heartbeatAt := Some(now)));
      if rowcount == 0 {
        return InvalidTransition;
      }
      job.row := job.row.(status := Active, claimedBy := Some(worker), claimedAt := Some(now), heartbeatAt := Some(now));
      return Done;
    }

    method SetStatusChecked(job: Job, newStatus: Status, expected: Status) returns (r: Outcome)
      modifies this, job
      ensures (table, r) == Apply(old(table), JobQueue.SetStatusChecked(job.id, newStatus, expected))
      ensures job.row == if r == Done then old(job.row).(status := newStatus) else old(job.row)
    {
      ghost var op := JobQueue.SetStatusChecked(job.id, newStatus, expected);
      assert CheckPasses(op) <==> newStatus in ValidTransitions(expected);
      if newStatus !in ValidTransitions(expected) {
        return InvalidTransition;
      }
      var rowcount := UpdateWhere(job.id, (r: Row) => r.status == expected, (r: Row) => r.(status := newStatus));
      if rowcount == 0 {
        return InvalidTransition;
      }
      job.row := job.row.(status := newStatus);
      return Done;
    }
  }

  /** Jobs are never deleted. */
  lemma {:induction false} RunKeepsIds(t: Table, ops: seq<Op>, id: nat)
    requires id in t
    ensures id in Run(t, ops)
    decreases |ops|
  {
    if ops != [] {
      RunKeepsIds(Apply(t, ops[0]).0, ops[1..], id);
    }
  }
}
