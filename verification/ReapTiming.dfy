/** Which leases the reaper takes, told from the heartbeats, and what its reaps add up to. */
module ReapTiming {
  import opened Options
  import opened JobQueue
  import Reap = ReapRace
  import Lease = LeaseProtocol

  /** A reap takes the lease of an active job exactly if its last heartbeat lies before the cutoff.  The job
      is one attempt older then, and is given up as an error after the third; otherwise nothing changes. */
  lemma ReapTakesIff(t: Table, id: nat, cutoff: int, beat: int)
    requires id in t && t[id].status == Active && t[id].heartbeatAt == Some(beat)
    ensures var row, row' := t[id], Apply(t, ReapStale(cutoff)).0[id];
            && (row'.status != Active <==> beat < cutoff)
            && (beat >= cutoff ==> row' == row)
            && (beat < cutoff ==>
                  row' == Row(if row.attempts < 3 then Pending else Error, row.attempts + 1, None, None, None, row.createdAt))
  {
  }

  // ----- the reaper in its two halves -----

  /** Neither half of a reap. */
  predicate NoReap(m: Lease.Move) {
    !m.Select? && !m.Flush?
  }

  lemma {:induction false} LoadedStays(w: Lease.World, moves: seq<Lease.Move>)
    requires forall m | m in moves :: NoReap(m)
    ensures Lease.After(w, moves).loaded == w.loaded
    decreases |moves|
  {
    if moves != [] {
      assert moves[0] in moves && forall m | m in moves[1..] :: m in moves;
      LoadedStays(Lease.Next(w, moves[0]), moves[1..]);
    }
  }

  lemma {:induction false} RunKeepsLeaseInv(w: Lease.World, moves: seq<Lease.Move>)
    requires Lease.LeaseInv(w) && Lease.Fenced(w) && Lease.GoodRun(w, moves)
    ensures Lease.LeaseInv(Lease.After(w, moves)) && Lease.Fenced(Lease.After(w, moves))
  {
    Lease.LeaseFencing(w, moves);
  }

  /** A worker that has beaten in time keeps its lease: whatever is called between the two halves of a reap, its
      commit takes a claim that is still current exactly if the claim's last heartbeat before the SELECT lay
      before the cutoff. */
  lemma FlushTakesLateIff(w: Lease.World, cutoff: int, moves: seq<Lease.Move>, c: Lease.Claim, beat: int)
    requires Lease.LeaseInv(w) && Lease.Fenced(w) && w.loaded == map[]
    requires c in w.inFlight && Lease.Current(w, c) && w.table[c.job].heartbeatAt == Some(beat)
    requires var w1 := Lease.Next(w, Lease.Select(cutoff)); Lease.GoodRun(w1, moves)
    requires forall m | m in moves :: NoReap(m)
    ensures var w2 := Lease.After(Lease.Next(w, Lease.Select(cutoff)), moves);
            c in w2.inFlight && Lease.Current(w2, c) ==>
              (!Lease.Current(Lease.Next(w2, Lease.Flush), c) <==> beat < cutoff)
  {
    var w1 := Lease.Next(w, Lease.Select(cutoff));
    Lease.MoveKeepsLeaseInv(w, Lease.Select(cutoff));
    Lease.MoveKeepsFencing(w, Lease.Select(cutoff));
    RunKeepsLeaseInv(w1, moves);
    LoadedStays(w1, moves);
    var w2 := Lease.After(w1, moves);
    if c in w2.inFlight && Lease.Current(w2, c) {
      Lease.LeaseEndsIff(w2, Lease.Flush, c);
    }
  }

  // ----- attempts -----

  /** The op reaps this job. */
  predicate Reaps(t: Table, op: Op, id: nat) {
    op.ReapStale? && id in t && t[id].status == Active && t[id].heartbeatAt.Some? && t[id].heartbeatAt.value < op.cutoff
  }

  predicate Requeues(t: Table, op: Op, id: nat) {
    op.Requeue? && op.id == id && Apply(t, op).1 == Done
  }

  /** How often the job has been reaped since it was last requeued by hand. */
  function ReapsSince(t: Table, ops: seq<Op>, id: nat): nat {
    if ops == [] then 0
    else
      var init, last := ops[..|ops| - 1], ops[|ops| - 1];
      var before := ReapsSince(t, init, id);
      if Requeues(Run(t, init), last, id) then 0
      else if Reaps(Run(t, init), last, id) then before + 1
      else before
  }

  lemma RunSnoc(t: Table, ops: seq<Op>)
    requires ops != []
    ensures Run(t, ops) == Apply(Run(t, ops[..|ops| - 1]), ops[|ops| - 1]).0
  {
    RunExtends(t, ops, |ops| - 1);
    assert ops[..|ops|] == ops;
  }

  lemma AttemptsStep(t: Table, op: Op, id: nat)
    requires id in t
    ensures id in Apply(t, op).0
    ensures Apply(t, op).0[id].attempts ==
            if Requeues(t, op, id) then 0 else if Reaps(t, op, id) then t[id].attempts + 1 else t[id].attempts
  {
  }

  /** Over every run: a job's attempts are the reaps since it was created or last requeued. */
  lemma {:induction false} AttemptsCountReaps(t: Table, id: nat, parked: bool, now: int, ops: seq<Op>)
    requires id !in t
    ensures var t0 := Apply(t, Create(id, parked, now)).0;
            id in Run(t0, ops) && Run(t0, ops)[id].attempts == ReapsSince(t0, ops, id)
    decreases |ops|
  {
    if ops != [] {
      var t0 := Apply(t, Create(id, parked, now)).0;
      AttemptsCountReaps(t, id, parked, now, ops[..|ops| - 1]);
      RunSnoc(t0, ops);
      AttemptsStep(Run(t0, ops[..|ops| - 1]), ops[|ops| - 1], id);
    }
  }

  /** So a job that keeps losing its workers is given up: its fourth reap ends in error, the first three do not. */
  lemma FourthReapGivesUp(t: Table, id: nat, parked: bool, now: int, ops: seq<Op>, cutoff: int)
    requires id !in t && Reaps(Run(Apply(t, Create(id, parked, now)).0, ops), ReapStale(cutoff), id)
    ensures var t0 := Apply(t, Create(id, parked, now)).0;
            var after := Apply(Run(t0, ops), ReapStale(cutoff)).0;
            id in after && after[id].status == if ReapsSince(t0, ops, id) < 3 then Pending else Error
  {
    AttemptsCountReaps(t, id, parked, now, ops);
  }

  // ----- parking -----

  predicate LetsGo(t: Table, op: Op, id: nat) {
    (op.Unpark? || op.Requeue?) && op.id == id && Apply(t, op).1 == Done
  }

  lemma HeldJobStays(t: Table, op: Op, id: nat)
    requires id in t && t[id].status == Hold && AsCalled(op) && !LetsGo(t, op, id)
    ensures id in Apply(t, op).0 && Apply(t, op).0[id] == t[id]
  {
  }

  /** A job created parked is worked on by nobody until it is unparked or requeued. */
  lemma {:induction false} ParkedWaits(t: Table, id: nat, now: int, ops: seq<Op>)
    requires id !in t && forall op | op in ops :: AsCalled(op)
    requires var t0 := Apply(t, Create(id, true, now)).0;
             forall k | 0 <= k < |ops| :: !LetsGo(Run(t0, ops[..k]), ops[k], id)
    ensures var after := Run(Apply(t, Create(id, true, now)).0, ops);
            id in after && after[id].status == Hold && after[id].claimedBy.None?
    decreases |ops|
  {
    if ops != [] {
      var t0, init := Apply(t, Create(id, true, now)).0, ops[..|ops| - 1];
      forall k | 0 <= k < |init| ensures !LetsGo(Run(t0, init[..k]), init[k], id) {
        assert init[..k] == ops[..k];
      }
      ParkedWaits(t, id, now, init);
      RunSnoc(t0, ops);
      assert !LetsGo(Run(t0, ops[..|init|]), ops[|init|], id);
      HeldJobStays(Run(t0, init), ops[|init|], id);
    }
  }
}
