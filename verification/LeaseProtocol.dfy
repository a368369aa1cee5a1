/**
 Lease fencing over whole runs: any number of jobs, workers, API actors and the reaper.

 The fence of `heartbeat` and `release` compares worker ids, but what it is meant to protect is
 one particular claim.  The model counts the claims of each job (`epochs`) and remembers which
 claim every handle still in flight came from; neither is visible to the program.  The reaper is
 in its two halves: it loads the stale rows, and later writes them back without a fence of its own.
 */
module LeaseProtocol {
  import opened Options
  import opened JobQueue
  import Reap = ReapRace

  /** A handle in flight: who holds it, on which job, and which claim of the job created it. */
  datatype Claim = Claim(worker: string, job: nat, epoch: nat)

  /** `loaded`: the rows the reaper has loaded and not yet written back. */
  datatype World = World(table: Table, epochs: map<nat, nat>, inFlight: set<Claim>, loaded: Table)

  datatype Move =
    | Do(op: Op)                       // anything but a heartbeat, a release or a reap
    | ByHolder(claim: Claim, op: Op)   // a heartbeat or release through a handle
    | Finish(claim: Claim)             // the handle's task ends (or its process dies)
    | Select(cutoff: int)              // the reaper loads the stale rows
    | Flush                            // and commits what it makes of them

  function Epoch(w: World, job: nat): nat {
    if job in w.epochs then w.epochs[job] else 0
  }

  predicate IsClaim(op: Op) {
    op.ClaimCandidate? || op.ClaimForApi?
  }

  /** Has this worker id a handle on this job in flight? */
  predicate InFlight(w: World, worker: string, job: nat) {
    exists c | c in w.inFlight :: c.worker == worker && c.job == job
  }

  predicate WellIssued(w: World, m: Move) {
    match m
    case Do(op) => AsCalled(op) && !op.Heartbeat? && !op.Release? && !op.ReapStale?
    case ByHolder(c, op) =>
      c in w.inFlight && AsCalled(op) && (op.Heartbeat? || op.Release?) && op.worker == c.worker && op.id == c.job
    case Finish(c) => c in w.inFlight
    case Select(_) => w.loaded == map[]
    case Flush => true
  }

  /** At most one handle in flight for a worker id and a job: checked when claiming. */
  predicate Disciplined(w: World, m: Move) {
    m.Do? && IsClaim(m.op) ==> !InFlight(w, m.op.worker, m.op.id)
  }

  function Next(w: World, m: Move): World {
    match m
    case Do(op) =>
      var (t, outcome) := Apply(w.table, op);
      if IsClaim(op) && outcome == Done then
        var epoch := Epoch(w, op.id) + 1;
        World(t, w.epochs[op.id := epoch], w.inFlight + {Claim(op.worker, op.id, epoch)}, w.loaded)
      else w.(table := t)
    case ByHolder(_, op) => w.(table := Apply(w.table, op).0)
    case Finish(c) => w.(inFlight := w.inFlight - {c})
    case Select(cutoff) => w.(loaded := Reap.Snapshot(w.table, cutoff))
    case Flush => w.(table := Reap.Commit(w.table, w.loaded), loaded := map[])
  }

  function After(w: World, moves: seq<Move>): World
    decreases |moves|
  {
    if moves == [] then w else After(Next(w, moves[0]), moves[1..])
  }

  ghost predicate GoodRun(w: World, moves: seq<Move>)
    decreases |moves|
  {
    moves != [] ==>
      WellIssued(w, moves[0]) && Disciplined(w, moves[0]) && GoodRun(Next(w, moves[0]), moves[1..])
  }

  /** The claim is the job's latest and its lease has not been taken away. */
  predicate Current(w: World, c: Claim) {
    c.job in w.table && w.table[c.job].status == Active && c.epoch == Epoch(w, c.job)
  }

  ghost predicate ClaimInv(w: World, c: Claim) {
    && c.job in w.table
    && c.epoch <= Epoch(w, c.job)
    && (Current(w, c) ==> w.table[c.job].claimedBy == Some(c.worker))
  }

  ghost predicate LeaseInv(w: World) {
    Reap.RaceInv(Reap.State(w.table, Some(w.loaded))) && forall c | c in w.inFlight :: ClaimInv(w, c)
  }

  /** The worker-id fence lets only the very claim through. */
  ghost predicate Fenced(w: World) {
    forall c | c in w.inFlight && c.job in w.table && HeldBy(w.table[c.job], c.worker) :: Current(w, c)
  }

  /** For the table, a move is one of the split reaper's. */
  function TableMove(m: Move): Reap.Move
    requires m.Do? || m.ByHolder? || m.Flush?
  {
    if m.Flush? then Reap.Flush else Reap.Call(m.op)
  }

  lemma MoveKeepsTable(w: World, m: Move)
    requires LeaseInv(w) && WellIssued(w, m)
    ensures Reap.RaceInv(Reap.State(Next(w, m).table, Some(Next(w, m).loaded)))
    ensures w.table.Keys <= Next(w, m).table.Keys
  {
    if m.Select? {
      Reap.MoveKeepsRaceInv(Reap.State(w.table, None), Reap.Select(m.cutoff));
    } else if !m.Finish? {
      Reap.MoveKeepsRaceInv(Reap.State(w.table, Some(w.loaded)), TableMove(m));
    }
  }

  /** No move makes a claim current again. */
  lemma ClaimKept(w: World, m: Move, c: Claim)
    requires LeaseInv(w) && WellIssued(w, m) && c in w.inFlight && w.table.Keys <= Next(w, m).table.Keys
    ensures ClaimInv(Next(w, m), c) && (Current(Next(w, m), c) ==> Current(w, c))
  {
    assert ClaimInv(w, c);
    assert Epoch(w, c.job) <= Epoch(Next(w, m), c.job);
    if Current(Next(w, m), c) {
      assert Epoch(w, c.job) == Epoch(Next(w, m), c.job);
      assert Current(w, c);
    }
  }

  lemma NewClaim(w: World, m: Move, c: Claim)
    requires WellIssued(w, m) && c in Next(w, m).inFlight && c !in w.inFlight
    ensures ClaimInv(Next(w, m), c) && Current(Next(w, m), c)
  {
  }

  lemma MoveKeepsLeaseInv(w: World, m: Move)
    requires LeaseInv(w) && WellIssued(w, m)
    ensures LeaseInv(Next(w, m))
  {
    var w' := Next(w, m);
    MoveKeepsTable(w, m);
    forall c | c in w'.inFlight
      ensures ClaimInv(w', c)
    {
      if c in w.inFlight {
        ClaimKept(w, m, c);
      } else {
        NewClaim(w, m, c);
      }
    }
  }

  /** A lease appears only by a successful claim, and moves by the others leave it where it is. */
  lemma LeaseComesByClaim(w: World, m: Move, job: nat, worker: string)
    requires WellIssued(w, m) && job in w.table && job in Next(w, m).table && HeldBy(Next(w, m).table[job], worker)
    ensures var w' := Next(w, m);
            || (HeldBy(w.table[job], worker) && Epoch(w', job) == Epoch(w, job))
            || (m.Do? && IsClaim(m.op) && m.op.id == job && m.op.worker == worker)
  {
  }

  lemma MoveKeepsFencing(w: World, m: Move)
    requires LeaseInv(w) && Fenced(w) && WellIssued(w, m) && Disciplined(w, m)
    ensures Fenced(Next(w, m))
  {
    var w' := Next(w, m);
    forall c | c in w'.inFlight && c.job in w'.table && HeldBy(w'.table[c.job], c.worker)
      ensures Current(w', c)
    {
      if c in w.inFlight {
        assert ClaimInv(w, c);
        LeaseComesByClaim(w, m, c.job, c.worker);
      } else {
        NewClaim(w, m, c);
      }
    }
  }

  /** Lease fencing: after every run in which no worker id claims a job it still has a handle on,
      the fence of every handle in flight opens for the current claim only. */
  lemma {:induction false} LeaseFencing(w: World, moves: seq<Move>)
    requires LeaseInv(w) && Fenced(w) && GoodRun(w, moves)
    ensures LeaseInv(After(w, moves)) && Fenced(After(w, moves))
    decreases |moves|
  {
    if moves != [] {
      MoveKeepsLeaseInv(w, moves[0]);
      MoveKeepsFencing(w, moves[0]);
      LeaseFencing(Next(w, moves[0]), moves[1..]);
    }
  }

  /** What that means for one call after such a run: a heartbeat succeeds exactly for the current
      claim, a release exactly when also the cached status allows it, and a stale handle is
      refused and changes nothing. */
  lemma {:induction false} HolderSucceedsIffCurrent(w: World, moves: seq<Move>, c: Claim, op: Op)
    requires LeaseInv(w) && Fenced(w) && GoodRun(w, moves)
    requires WellIssued(After(w, moves), ByHolder(c, op))
    ensures var w' := After(w, moves);
            var (t, outcome) := Apply(w'.table, op);
            && (op.Heartbeat? ==> (outcome == Done <==> Current(w', c)))
            && (op.Release? ==> (outcome == Done <==> Current(w', c) && op.target in ValidTransitions(op.cached)))
            && (!Current(w', c) ==> outcome in {LeaseLost, InvalidTransition} && t == w'.table)
  {
    LeaseFencing(w, moves);
    var w' := After(w, moves);
    assert ClaimInv(w', c);
  }

  /** The discipline is not merely sufficient: a claim that succeeds keeps the fence sound if and
      only if its worker id had no handle on that job in flight. */
  lemma ClaimKeepsFencingIff(w: World, op: Op)
    requires LeaseInv(w) && Fenced(w) && IsClaim(op) && AsCalled(op)
    requires Apply(w.table, op).1 == Done
    ensures Fenced(Next(w, Do(op))) <==> !InFlight(w, op.worker, op.id)
  {
    if InFlight(w, op.worker, op.id) {
      var c :| c in w.inFlight && c.worker == op.worker && c.job == op.id;
      var w' := Next(w, Do(op));
      assert ClaimInv(w, c);
      assert c in w'.inFlight && HeldBy(w'.table[c.job], c.worker) && !Current(w', c);
    } else {
      MoveKeepsFencing(w, Do(op));
    }
  }

  // ----- the fence can be fooled in practice -----

  /** An approval under some API identity outlives its lease; a worker then settles the job back
      to quarantine, and the same identity approves it again. */
  function DoubleApproval(api: string): seq<Move> {
    [Do(ClaimForApi(0, Quarantine, api, {Quarantine}, 10)),
     Select(20),
     Flush,
     Do(ClaimCandidate(0, "w-0", 30)),
     ByHolder(Claim("w-0", 0, 2), Release(0, Active, Quarantine, "w-0")),
     Do(ClaimForApi(0, Quarantine, api, {Quarantine}, 40))]
  }

  /** The world after the first k of these moves. */
  function DoubleApprovalWorld(api: string, k: nat): World {
    if k == 0 then World(map[0 := Row(Quarantine, 0, None, None, None, 0)], map[], {}, map[])
    else if k <= 2 then
      var active := Row(Active, 0, Some(api), Some(10), Some(10), 0);
      World(map[0 := active], map[0 := 1], {Claim(api, 0, 1)}, if k == 1 then map[] else map[0 := active])
    else if k == 3 then
      World(map[0 := Row(Pending, 1, None, None, None, 0)], map[0 := 1], {Claim(api, 0, 1)}, map[])
    else if k == 4 then
      World(map[0 := Row(Active, 1, Some("w-0"), Some(30), Some(30), 0)], map[0 := 2],
            {Claim(api, 0, 1), Claim("w-0", 0, 2)}, map[])
    else if k == 5 then
      World(map[0 := Row(Quarantine, 1, None, None, None, 0)], map[0 := 2],
            {Claim(api, 0, 1), Claim("w-0", 0, 2)}, map[])
    else
      World(map[0 := Row(Active, 1, Some(api), Some(40), Some(40), 0)], map[0 := 3],
            {Claim(api, 0, 1), Claim("w-0", 0, 2), Claim(api, 0, 3)}, map[])
  }

  /** The k-th move can be made in the k-th world and leads to the next one. */
  ghost predicate Leads(api: string, k: nat)
    requires k < 6
  {
    && WellIssued(DoubleApprovalWorld(api, k), DoubleApproval(api)[k])
    && Next(DoubleApprovalWorld(api, k), DoubleApproval(api)[k]) == DoubleApprovalWorld(api, k + 1)
  }

  lemma Approved(api: string)
    ensures Leads(api, 0)
  {
    var w, m, w' := DoubleApprovalWorld(api, 0), DoubleApproval(api)[0], DoubleApprovalWorld(api, 1);
    assert Next(w, m).table == w'.table && Next(w, m).loaded == w'.loaded;
    assert Next(w, m).epochs == w'.epochs && Next(w, m).inFlight == w'.inFlight;
  }

  lemma Loaded(api: string)
    ensures Leads(api, 1)
  {
    var w, m, w' := DoubleApprovalWorld(api, 1), DoubleApproval(api)[1], DoubleApprovalWorld(api, 2);
    assert Next(w, m).table == w'.table && Next(w, m).loaded == w'.loaded;
    assert Next(w, m).epochs == w'.epochs && Next(w, m).inFlight == w'.inFlight;
  }

  lemma Reaped(api: string)
    ensures Leads(api, 2)
  {
    var w, m, w' := DoubleApprovalWorld(api, 2), DoubleApproval(api)[2], DoubleApprovalWorld(api, 3);
    assert Next(w, m).table == w'.table && Next(w, m).loaded == w'.loaded;
    assert Next(w, m).epochs == w'.epochs && Next(w, m).inFlight == w'.inFlight;
  }

  lemma Claimed(api: string)
    ensures Leads(api, 3)
  {
    var w, m, w' := DoubleApprovalWorld(api, 3), DoubleApproval(api)[3], DoubleApprovalWorld(api, 4);
    assert Next(w, m).table == w'.table && Next(w, m).loaded == w'.loaded;
    assert Next(w, m).epochs == w'.epochs && Next(w, m).inFlight == w'.inFlight;
  }

  lemma Settled(api: string)
    ensures Leads(api, 4)
  {
    var w, m, w' := DoubleApprovalWorld(api, 4), DoubleApproval(api)[4], DoubleApprovalWorld(api, 5);
    assert Next(w, m).table == w'.table && Next(w, m).loaded == w'.loaded;
    assert Next(w, m).epochs == w'.epochs && Next(w, m).inFlight == w'.inFlight;
  }

  lemma ApprovedAgain(api: string)
    ensures Leads(api, 5)
  {
    var w, m, w' := DoubleApprovalWorld(api, 5), DoubleApproval(api)[5], DoubleApprovalWorld(api, 6);
    assert Next(w, m).table == w'.table && Next(w, m).loaded == w'.loaded;
    assert Next(w, m).epochs == w'.epochs && Next(w, m).inFlight == w'.inFlight;
  }

  lemma DoubleApprovalStep(api: string, k: nat)
    requires k < 6
    ensures Leads(api, k)
  {
    match k
    case 0 => Approved(api);
    case 1 => Loaded(api);
    case 2 => Reaped(api);
    case 3 => Claimed(api);
    case 4 => Settled(api);
    case _ => ApprovedAgain(api);
  }

  lemma {:induction false} DoubleApprovalRun(api: string, k: nat)
    requires k <= 6
    ensures After(DoubleApprovalWorld(api, k), DoubleApproval(api)[k..]) == DoubleApprovalWorld(api, 6)
    decreases 6 - k
  {
    if k < 6 {
      DoubleApprovalStep(api, k);
      assert DoubleApproval(api)[k..][1..] == DoubleApproval(api)[k + 1..];
      DoubleApprovalRun(api, k + 1);
    }
  }

  /** API claims share the worker id `api-<identity>`, so the discipline can be broken: after two
      approvals of a job under one identity, with the first task still running, the first task's
      release goes through although the lease belongs to the second. */
  lemma ApiIdentityFoolsTheFence(api: string)
    ensures var w := After(DoubleApprovalWorld(api, 0), DoubleApproval(api));
            var stale := Claim(api, 0, 1);
            && stale in w.inFlight && !Current(w, stale) && Current(w, Claim(api, 0, 3))
            && Apply(w.table, Release(0, Active, Remediated, api)).1 == Done
    ensures forall k | 0 <= k < 6 :: Leads(api, k)
  {
    DoubleApprovalRun(api, 0);
    forall k | 0 <= k < 6 ensures Leads(api, k) {
      DoubleApprovalStep(api, k);
    }
    assert DoubleApproval(api)[0..] == DoubleApproval(api);
  }

  /** The caller's part: the check on the cached status, on a fence that opens. */
  predicate Releases(m: Move, c: Claim) {
    m.ByHolder? && m.op.Release? && m.claim == c && m.op.target in ValidTransitions(m.op.cached)
  }

  /** What ends a lease: a move takes a current claim away exactly if it is the claim's own release, the reaper
      writing back the job as it has loaded it, or a requeue that read the job as active. */
  lemma LeaseEndsIff(w: World, m: Move, c: Claim)
    requires LeaseInv(w) && Fenced(w) && WellIssued(w, m) && c in w.inFlight && Current(w, c)
    ensures !Current(Next(w, m), c) <==>
            || Releases(m, c)
            || (m.Flush? && c.job in w.loaded)
            || (m.Do? && m.op.Requeue? && m.op.id == c.job && m.op.cached == Active)
  {
    assert ClaimInv(w, c);
    if m.ByHolder? {
      assert ClaimInv(w, m.claim);
      if m.op.id == c.job && HeldBy(w.table[c.job], m.op.worker) {
        assert Current(w, m.claim);
        assert m.claim == c;
      }
    }
  }

  /** A heartbeat in time does not help: once the reaper has loaded the job, the holder's heartbeat still goes
      through, and then the lease is gone. */
  lemma HeartbeatAfterTheSelect(w: World, c: Claim, cutoff: int, now: int)
    requires LeaseInv(w) && Fenced(w) && w.loaded == map[]
    requires c in w.inFlight && Current(w, c) && IsStale(w.table[c.job], cutoff)
    ensures var beat := ByHolder(c, Heartbeat(c.job, c.worker, now));
            && GoodRun(w, [Select(cutoff), beat, Flush])
            && var w1 := Next(w, Select(cutoff));
               && Apply(w1.table, beat.op).1 == Done && Current(Next(w1, beat), c)
               && Next(w1, beat).table[c.job].heartbeatAt == Some(now)
               && !Current(Next(Next(w1, beat), Flush), c)
  {
    var beat := ByHolder(c, Heartbeat(c.job, c.worker, now));
    assert ClaimInv(w, c);
    var w1 := Next(w, Select(cutoff));
    var w2 := Next(w1, beat);
    assert GoodRun(Next(w2, Flush), []);
    assert [Flush][1..] == [] && GoodRun(w2, [Flush]);
    assert [beat, Flush][1..] == [Flush] && GoodRun(w1, [beat, Flush]);
    assert [Select(cutoff), beat, Flush][1..] == [beat, Flush];
  }
}
