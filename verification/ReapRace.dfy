/**
 `reap_stale` in its two halves.  It reads the stale jobs with one SELECT and writes them back by id
 at the commit, without a condition on the stored rows, so other calls can come in between; `ReapStale`
 of `JobQueue` is the case in which none does.
 */
module ReapRace {
  import opened Options
  import opened JobQueue

  /** What the SELECT has loaded. */
  function Snapshot(t: Table, cutoff: int): Table {
    map id | id in t && IsStale(t[id], cutoff) :: t[id]
  }

  /** What the commit writes, whatever is stored by now: all from the loaded row. */
  function Overwritten(row: Row, loaded: Row): Row {
    Unleased(row.(attempts := Reaped(loaded).attempts), Reaped(loaded).status)
  }

  function Commit(t: Table, snapshot: Table): Table {
    map id | id in t :: if id in snapshot then Overwritten(t[id], snapshot[id]) else t[id]
  }

  datatype State = State(table: Table, snapshot: Option<Table>)

  datatype Move = Call(op: Op) | Select(cutoff: int) | Flush

  /** The pool has one reaper loop, and nobody reaps but the reaper. */
  predicate Enabled(s: State, m: Move) {
    match m
    case Call(op) => AsCalled(op) && !op.ReapStale?
    case Select(_) => s.snapshot.None?
    case Flush => s.snapshot.Some?
  }

  function Next(s: State, m: Move): State
    requires Enabled(s, m)
  {
    match m
    case Call(op) => s.(table := Apply(s.table, op).0)
    case Select(cutoff) => s.(snapshot := Some(Snapshot(s.table, cutoff)))
    case Flush => State(Commit(s.table, s.snapshot.value), None)
  }

  ghost predicate IsRun(s: State, moves: seq<Move>)
    decreases |moves|
  {
    moves == [] || (Enabled(s, moves[0]) && IsRun(Next(s, moves[0]), moves[1..]))
  }

  ghost function After(s: State, moves: seq<Move>): State
    requires IsRun(s, moves)
    decreases |moves|
  {
    if moves == [] then s else After(Next(s, moves[0]), moves[1..])
  }

  /** The loaded rows were good active ones, and their jobs are still there. */
  ghost predicate RaceInv(s: State) {
    && QueueInv(s.table)
    && (s.snapshot.Some? ==>
          && s.snapshot.value.Keys <= s.table.Keys
          && forall id | id in s.snapshot.value ::
               RowInv(s.snapshot.value[id]) && s.snapshot.value[id].status == Active)
  }

  lemma MoveKeepsRaceInv(s: State, m: Move)
    requires RaceInv(s) && Enabled(s, m)
    ensures RaceInv(Next(s, m)) && s.table.Keys <= Next(s, m).table.Keys
  {
    if m.Call? {
      StepIsSafe(s.table, m.op);
    }
  }

  /** The row invariant survives the race: over every run of calls and split reaps, lease fields are on
      active rows only and the attempts stay in bounds. */
  lemma {:induction false} RaceKeepsTheInvariant(s: State, moves: seq<Move>)
    requires RaceInv(s) && IsRun(s, moves)
    ensures RaceInv(After(s, moves)) && s.table.Keys <= After(s, moves).table.Keys
    decreases |moves|
  {
    if moves != [] {
      MoveKeepsRaceInv(s, moves[0]);
      RaceKeepsTheInvariant(Next(s, moves[0]), moves[1..]);
    }
  }

  /** Where the stored status may stand when the commit comes. */
  predicate MayOverwrite(stored: Status, loaded: Row) {
    if loaded.attempts < MAX_ATTEMPTS then stored != Remediated else stored in {Active, Error}
  }

  /** The table of transitions does not survive it: a commit moves every job along an edge exactly if
      none of the loaded jobs has become remediated meanwhile and those on their last attempt are
      still active, or in error already. */
  lemma FlushFollowsEdgesIff(s: State)
    requires RaceInv(s) && s.snapshot.Some?
    ensures EdgesOnly(s.table, Next(s, Flush).table) <==>
            forall id | id in s.snapshot.value :: MayOverwrite(s.table[id].status, s.snapshot.value[id])
  {
    forall id | id in s.snapshot.value
      ensures FollowsEdge(s.table[id], Overwritten(s.table[id], s.snapshot.value[id]))
              <==> MayOverwrite(s.table[id].status, s.snapshot.value[id])
    {
      OverwrittenFollowsEdgeIff(s.table[id], s.snapshot.value[id]);
    }
    var next := Next(s, Flush).table;
    if EdgesOnly(s.table, next) {
      forall id | id in s.snapshot.value ensures MayOverwrite(s.table[id].status, s.snapshot.value[id]) {
        assert FollowsEdge(s.table[id], next[id]);
      }
    }
  }

  lemma OverwrittenFollowsEdgeIff(row: Row, loaded: Row)
    ensures FollowsEdge(row, Overwritten(row, loaded)) <==> MayOverwrite(row.status, loaded)
  {
    assert Overwritten(row, loaded).status == if loaded.attempts < MAX_ATTEMPTS then Pending else Error;
  }

  /** A job leaves `remediated` exactly by a commit that has it loaded, that is, if it was released
      after the SELECT. */
  lemma RemediatedIsLeftIff(s: State, m: Move, id: nat)
    requires RaceInv(s) && Enabled(s, m) && id in s.table && s.table[id].status == Remediated
    ensures id in Next(s, m).table
    ensures Next(s, m).table[id].status != Remediated <==> m.Flush? && id in s.snapshot.value
  {
    MoveKeepsRaceInv(s, m);
    if m.Call? {
      StepIsSafe(s.table, m.op);
      assert FollowsEdge(s.table[id], Next(s, m).table[id]);
    }
  }

  /** Such a run starts from every stale job that may be tried again: its worker, only late with the
      heartbeat, remediates and releases between the two halves, and the job can be claimed and worked
      on once more. */
  lemma ReapUndoesRemediated(t: Table, id: nat, cutoff: int, worker: string, next: string, now: int)
    requires QueueInv(t) && id in t && IsStale(t[id], cutoff) && HeldBy(t[id], worker)
    requires t[id].attempts < MAX_ATTEMPTS
    ensures var released := [Select(cutoff), Call(Release(id, Active, Remediated, worker))];
            var claimed := released + [Flush, Call(ClaimCandidate(id, next, now))];
            && Leads(State(t, None), released, id, Remediated)
            && Leads(State(t, None), claimed, id, Active)
  {
    var release, claim := Call(Release(id, Active, Remediated, worker)), Call(ClaimCandidate(id, next, now));
    var s0 := State(t, None);
    var s1 := Next(s0, Select(cutoff));
    var s2 := Next(s1, release);
    var s3 := Next(s2, Flush);
    assert s2.table[id].status == Remediated;
    assert s3.table[id].status == Pending;
    assert Leads(s2, [], id, Remediated) && Leads(Next(s3, claim), [], id, Active);
    Before(s1, release, [], id, Remediated);
    Before(s0, Select(cutoff), [release], id, Remediated);
    Before(s3, claim, [], id, Active);
    Before(s2, Flush, [claim], id, Active);
    Before(s1, release, [Flush, claim], id, Active);
    Before(s0, Select(cutoff), [release, Flush, claim], id, Active);
    assert [Select(cutoff)] + [release] == [Select(cutoff), release];
    assert [Select(cutoff)] + [release, Flush, claim] == [Select(cutoff), release] + [Flush, claim];
  }

  ghost predicate Leads(s: State, moves: seq<Move>, id: nat, status: Status) {
    IsRun(s, moves) && id in After(s, moves).table && After(s, moves).table[id].status == status
  }

  lemma Before(s: State, m: Move, rest: seq<Move>, id: nat, status: Status)
    requires Enabled(s, m) && Leads(Next(s, m), rest, id, status)
    ensures Leads(s, [m] + rest, id, status)
  {
    assert ([m] + rest)[1..] == rest;
  }

  // ----- when nothing interferes -----

  predicate LeavesAlone(op: Op, snapshot: Table) {
    !op.ReapStale? && op.id !in snapshot
  }

  lemma StepCommutes(t: Table, snapshot: Table, op: Op)
    requires LeavesAlone(op, snapshot)
    ensures Apply(Commit(t, snapshot), op).0 == Commit(Apply(t, op).0, snapshot)
  {
  }

  /** If no call in between names a loaded job, the two halves are the atomic reap made at the SELECT:
      what `ReapStale` of `JobQueue` stands for. */
  lemma {:induction false} UndisturbedReapIsAtomic(t: Table, cutoff: int, ops: seq<Op>)
    requires forall op | op in ops :: LeavesAlone(op, Snapshot(t, cutoff))
    ensures Commit(Run(t, ops), Snapshot(t, cutoff)) == Run(Apply(t, ReapStale(cutoff)).0, ops)
  {
    assert Commit(t, Snapshot(t, cutoff)) == ReapAll(t, cutoff);
    RunCommutes(t, Snapshot(t, cutoff), ops);
  }

  lemma {:induction false} RunCommutes(t: Table, snapshot: Table, ops: seq<Op>)
    requires forall op | op in ops :: LeavesAlone(op, snapshot)
    ensures Commit(Run(t, ops), snapshot) == Run(Commit(t, snapshot), ops)
    decreases |ops|
  {
    if ops != [] {
      assert ops[0] in ops;
      StepCommutes(t, snapshot, ops[0]);
      RunCommutes(Apply(t, ops[0]).0, snapshot, ops[1..]);
    }
  }
}
