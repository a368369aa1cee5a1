/**
 The job queue of `jobs.py`.  The `jobs` table is a map from ids to rows.  Every
 function of the source checks a transition on a *cached* status and then runs one
 conditional UPDATE on the *stored* row; `Apply` is that pair as one atomic step whose
 cached status is an arbitrary argument, so whatever is proved about it holds however
 stale the caller's copy is.  The class `JobStore` is the module as the source writes it.
 */
module JobQueue {
  import opened Options

  const MAX_ATTEMPTS := 3

  datatype Status = Hold | Pending | Active | Matched | Quarantine | Inconclusive | Error | Remediated

  const TERMINAL_STATUSES: set<Status> := {Matched, Quarantine, Inconclusive, Error, Remediated}

  /** The statuses a human verdict, or the replace endpoint, may start from. */
  const VERDICT_ALLOWED_STATUSES: set<Status> := {Quarantine, Inconclusive}

  function ValidTransitions(from: Status): set<Status> {
    match from
    case Hold => {Pending}
    case Pending => {Hold, Active}
    case Active => {Pending} + TERMINAL_STATUSES
    case Matched => {Pending}
    case Quarantine => {Pending, Active, Matched, Quarantine, Inconclusive}
    case Inconclusive => {Pending, Active, Matched, Quarantine, Inconclusive}
    case Error => {Pending}
    case Remediated => {}
  }

  datatype Row = Row(status: Status, attempts: nat, claimedBy: Option<string>,
                     claimedAt: Option<int>, heartbeatAt: Option<int>, createdAt: int)

  type Table = map<nat, Row>

  datatype Outcome = Done | InvalidTransition | LeaseLost

  /** One call into the module, with the caller's cached status where the source has one. */
  datatype Op =
    | Create(id: nat, parked: bool, now: int)
    | ClaimCandidate(id: nat, worker: string, now: int)
    | Heartbeat(id: nat, worker: string, now: int)
    | Release(id: nat, cached: Status, target: Status, worker: string)
    | ReapStale(cutoff: int)
    | Park(id: nat, cached: Status)
    | Unpark(id: nat, cached: Status)
    | Requeue(id: nat, cached: Status)
    | ClaimForApi(id: nat, cached: Status, worker: string, fromStatuses: set<Status>, now: int)
    | SetStatusChecked(id: nat, target: Status, expected: Status)

  function Leased(row: Row, worker: string, now: int): Row {
    row.(status := Active, claimedBy := Some(worker), claimedAt := Some(now), heartbeatAt := Some(now))
  }

  function Unleased(row: Row, status: Status): Row {
    row.(status := status, claimedBy := None, claimedAt := None, heartbeatAt := None)
  }

  predicate HeldBy(row: Row, worker: string) {
    row.status == Active && row.claimedBy == Some(worker)
  }

  predicate IsStale(row: Row, cutoff: int) {
    row.status == Active && row.heartbeatAt.Some? && row.heartbeatAt.value < cutoff
  }

  function Reaped(row: Row): Row {
    Unleased(row.(attempts := row.attempts + 1), if row.attempts + 1 > MAX_ATTEMPTS then Error else Pending)
  }

  function ReapAll(t: Table, cutoff: int): Table {
    map id | id in t :: if IsStale(t[id], cutoff) then Reaped(t[id]) else t[id]
  }

  /** The status check every caller of `_check_transition` makes, on what it has cached. */
  predicate CheckPasses(op: Op) {
    match op
    case Release(_, cached, target, _) => target in ValidTransitions(cached)
    case Park(_, cached) => Hold in ValidTransitions(cached)
    case Unpark(_, cached) => Pending in ValidTransitions(cached)
    case Requeue(_, cached) => Pending in ValidTransitions(cached)
    case ClaimForApi(_, cached, _, _, _) => Active in ValidTransitions(cached)
    case SetStatusChecked(_, target, expected) => target in ValidTransitions(expected)
    case _ => true
  }

  /** The WHERE clause of the conditional UPDATE, on the stored row. */
  predicate Guard(row: Row, op: Op) {
    match op
    case Create(_, _, _) => false
    case ClaimCandidate(_, _, _) => row.status == Pending
    case Heartbeat(_, worker, _) => HeldBy(row, worker)
    case Release(_, _, _, worker) => HeldBy(row, worker)
    case ReapStale(cutoff) => IsStale(row, cutoff)
    case Park(_, _) => row.status == Pending
    case Unpark(_, _) => row.status == Hold
    case Requeue(_, cached) => row.status == cached
    case ClaimForApi(_, _, _, fromStatuses, _) => row.status in fromStatuses
    case SetStatusChecked(_, _, expected) => row.status == expected
  }

  /** The SET clause of the conditional UPDATE. */
  function Updated(row: Row, op: Op): Row {
    match op
    case Create(_, _, _) => row
    case ClaimCandidate(_, worker, now) => Leased(row, worker, now)
    case Heartbeat(_, _, now) => row.(heartbeatAt := Some(now))
    case Release(_, _, target, _) => Unleased(row, target)
    case ReapStale(_) => Reaped(row)
    case Park(_, _) => row.(status := Hold)
    case Unpark(_, _) => row.(status := Pending)
    case Requeue(_, _) => Unleased(row, Pending).(attempts := 0)
    case ClaimForApi(_, _, worker, _, now) => Leased(row, worker, now)
    case SetStatusChecked(_, target, _) => row.(status := target)
  }

  /** What a caller sees when the UPDATE matches no row. */
  function Refusal(op: Op): Outcome {
    if op.Heartbeat? || op.Release? then LeaseLost else InvalidTransition
  }

  /** One atomic step of the queue. */
  function Apply(t: Table, op: Op): (Table, Outcome) {
    match op
    case Create(id, parked, now) =>
      if id in t then (t, InvalidTransition)
      else (t[id := Row(if parked then Hold else Pending, 0, None, None, None, now)], Done)
    case ReapStale(cutoff) => (ReapAll(t, cutoff), Done)
    case _ =>
      if !CheckPasses(op) then (t, InvalidTransition)
      else if op.id in t && Guard(t[op.id], op) then (t[op.id := Updated(t[op.id], op)], Done)
      else (t, Refusal(op))
  }

  function Run(t: Table, ops: seq<Op>): Table
    decreases |ops|
  {
    if ops == [] then t else Run(Apply(t, ops[0]).0, ops[1..])
  }

  /** How the rest of the repository calls the module: workers and remediation release to
      `pending` or a terminal status, the API claims from quarantine (and, for replace,
      inconclusive), and human verdicts move jobs among the three reviewable statuses. */
  predicate AsCalled(op: Op) {
    && (op.Release? ==> op.target in {Pending} + TERMINAL_STATUSES)
    && (op.ClaimForApi? ==> op.fromStatuses == {Quarantine} || op.fromStatuses == VERDICT_ALLOWED_STATUSES)
    && (op.SetStatusChecked? ==>
          op.expected in VERDICT_ALLOWED_STATUSES && op.target in {Matched, Quarantine, Inconclusive})
  }

  // ----- the safety invariant -----

  predicate RowInv(row: Row) {
    && (row.status == Active <==> row.claimedBy.Some?)
    && (row.status == Active <==> row.claimedAt.Some?)
    && (row.status == Active <==> row.heartbeatAt.Some?)
    && row.attempts <= MAX_ATTEMPTS + 1
    && (row.attempts == MAX_ATTEMPTS + 1 ==> row.status == Error)
  }

  ghost predicate QueueInv(t: Table) {
    forall id | id in t :: RowInv(t[id])
  }

  /** The stored status moves along an edge of the table, or does not move. */
  predicate FollowsEdge(before: Row, after: Row) {
    after.status == before.status || after.status in ValidTransitions(before.status)
  }

  ghost predicate EdgesOnly(t: Table, t': Table) {
    && t.Keys <= t'.Keys
    && (forall id | id in t :: FollowsEdge(t[id], t'[id]))
    && (forall id | id in t' && id !in t :: t'[id].status in {Hold, Pending})
  }

  /** One row, one UPDATE: the invariant and the edge, from the stored row's guard alone. */
  lemma UpdateIsSafe(row: Row, op: Op)
    requires AsCalled(op) && CheckPasses(op) && Guard(row, op) && RowInv(row)
    ensures RowInv(Updated(row, op)) && FollowsEdge(row, Updated(row, op))
  {
  }

  /** Any single call, from a good table, leaves a good table and moves rows along edges;
      a call that does not succeed leaves the table as it was. */
  lemma StepIsSafe(t: Table, op: Op)
    requires QueueInv(t) && AsCalled(op)
    ensures QueueInv(Apply(t, op).0) && EdgesOnly(t, Apply(t, op).0)
    ensures Apply(t, op).1 != Done ==> Apply(t, op).0 == t
  {
    forall id | id in t && CheckPasses(op) && Guard(t[id], op)
      ensures RowInv(Updated(t[id], op)) && FollowsEdge(t[id], Updated(t[id], op))
    {
      UpdateIsSafe(t[id], op);
    }
  }

  /** The stored status history of a run has only table edges, for every interleaving. */
  lemma {:induction false} QueueSafety(t: Table, ops: seq<Op>)
    requires QueueInv(t) && forall op | op in ops :: AsCalled(op)
    ensures QueueInv(Run(t, ops)) && t.Keys <= Run(t, ops).Keys
    ensures forall k | 0 <= k < |ops| :: EdgesOnly(Run(t, ops[..k]), Run(t, ops[..k + 1]))
    ensures forall id | id in t && t[id].status == Remediated :: Run(t, ops)[id].status == Remediated
    decreases |ops|
  {
    if ops != [] {
      var t' := Apply(t, ops[0]).0;
      StepIsSafe(t, ops[0]);
      QueueSafety(t', ops[1..]);
      forall k | 0 <= k < |ops|
        ensures EdgesOnly(Run(t, ops[..k]), Run(t, ops[..k + 1]))
      {
        assert ops[..k + 1][1..] == ops[1..][..k];
        if k == 0 {
          assert Run(t, ops[..1]) == Run(t', []) == t';
        } else {
          assert ops[..k][1..] == ops[1..][..k - 1];
        }
      }
    }
  }

  /** The restriction on `release` is exact: the check on the cached status lets a release to
      `target` through, and then every stored row it may hit moves along an edge, if and only if
      the target is pending or terminal. */
  lemma ReleaseTargetIsExact(cached: Status, target: Status, worker: string)
    requires target in ValidTransitions(cached)
    ensures target in {Pending} + TERMINAL_STATUSES <==>
            forall row | HeldBy(row, worker) ::
              Updated(row, Release(0, cached, target, worker)).status in ValidTransitions(row.status)
  {
    var row := Row(Active, 0, Some(worker), Some(0), Some(0), 0);
    assert HeldBy(row, worker);
  }

  /** `claim_for_api` follows edges from every stored status if and only if its `from_statuses`
      all allow `active`; the check it makes is on the cached status and does not help. */
  lemma ClaimFromStatusesIsExact(worker: string, fromStatuses: set<Status>, now: int)
    ensures fromStatuses <= {Pending} + VERDICT_ALLOWED_STATUSES <==>
            forall row, cached | Guard(row, ClaimForApi(0, cached, worker, fromStatuses, now)) ::
              Updated(row, ClaimForApi(0, cached, worker, fromStatuses, now)).status in ValidTransitions(row.status)
  {
    if !(fromStatuses <= {Pending} + VERDICT_ALLOWED_STATUSES) {
      var s :| s in fromStatuses && s !in {Pending} + VERDICT_ALLOWED_STATUSES;
      var row := Row(s, 0, None, None, None, 0);
      var op := ClaimForApi(0, Pending, worker, fromStatuses, now);
      assert Guard(row, op) && Updated(row, op).status !in ValidTransitions(row.status);
    } else {
      forall row: Row, cached | Guard(row, ClaimForApi(0, cached, worker, fromStatuses, now))
        ensures Active in ValidTransitions(row.status)
      {
        assert row.status in {Pending} + VERDICT_ALLOWED_STATUSES;
      }
    }
  }

  /** `requeue` is documented for settled jobs only, but it also takes a job off hold and takes an
      *active* job away from its worker: it is refused exactly for remediated rows, pending
      rows and rows whose status has moved since it was read. */
  lemma RequeueAcceptsExactly(t: Table, id: nat, cached: Status)
    ensures Apply(t, Requeue(id, cached)).1 == Done <==>
            id in t && t[id].status == cached && cached !in {Pending, Remediated}
  {
  }

  /** A checked status change goes through exactly for a stored row that is still as expected, along an edge, and
      moves its status alone.  Of two that expect the same status the second is refused and changes nothing, unless
      the first leaves the status as it was. */
  lemma StatusMovesIff(t: Table, id: nat, target: Status, expected: Status)
    ensures var (t', outcome) := Apply(t, SetStatusChecked(id, target, expected));
            && (outcome == Done <==> id in t && t[id].status == expected && target in ValidTransitions(expected))
            && (outcome == Done ==> t' == t[id := t[id].(status := target)])
            && (outcome != Done ==> t' == t)
    ensures Apply(t, SetStatusChecked(id, target, expected)).1 == Done && target != expected ==>
              forall other :: var t' := Apply(t, SetStatusChecked(id, target, expected)).0;
                              Apply(t', SetStatusChecked(id, other, expected)) == (t', InvalidTransition)
  {
  }

  /** What a refused caller is told: that the lease is lost, exactly for a heartbeat or a release that passes its
      check while the worker does not hold the stored row; otherwise that the transition is invalid. */
  lemma LeaseLostIff(t: Table, op: Op)
    ensures Apply(t, op).1 == LeaseLost <==>
            || (op.Heartbeat? && !(op.id in t && t[op.id].status == Active && t[op.id].claimedBy == Some(op.worker)))
            || (op.Release? && op.target in ValidTransitions(op.cached)
                && !(op.id in t && t[op.id].status == Active && t[op.id].claimedBy == Some(op.worker)))
  {
  }

  /** A job's place in the queue is the time it was created, whatever happens to it. */
  lemma {:induction false} CreatedAtStays(t: Table, id: nat, parked: bool, now: int, ops: seq<Op>)
    requires id !in t
    ensures var after := Run(Apply(t, Create(id, parked, now)).0, ops); id in after && after[id].createdAt == now
    decreases |ops|
  {
    var t0 := Apply(t, Create(id, parked, now)).0;
    if ops != [] {
      CreatedAtStays(t, id, parked, now, ops[..|ops| - 1]);
      RunExtends(t0, ops, |ops| - 1);
      assert ops[..|ops|] == ops;
    }
  }

  /** First come, first served: while an older job is pending no newer one is the candidate. */
  lemma FirstComeFirstServed(t: Table, older: nat, newer: nat)
    requires older in PendingIds(t) && newer in t && t[older].createdAt < t[newer].createdAt
    ensures Oldest(t) != Some(newer)
  {
  }

  // ----- claim_next -----

  predicate Before(t: Table, a: nat, b: nat)
    requires a in t && b in t
  {
    t[a].createdAt < t[b].createdAt || (t[a].createdAt == t[b].createdAt && a <= b)
  }

  function PendingIds(t: Table): set<nat> {
    set id | id in t && t[id].status == Pending
  }

  ghost predicate IsOldest(t: Table, id: nat) {
    && id in PendingIds(t)
    && forall other | other in PendingIds(t) :: Before(t, id, other)
  }

  lemma {:induction false} OldestExists(t: Table, ids: set<nat>) returns (oldest: nat)
    requires ids != {} && ids <= PendingIds(t)
    ensures oldest in ids && forall other | other in ids :: Before(t, oldest, other)
    decreases |ids|
  {
    oldest :| oldest in ids;
    var rest := ids - {oldest};
    if rest != {} {
      var y := OldestExists(t, rest);
      if !Before(t, oldest, y) {
        assert forall other | other in ids :: other == oldest || other in rest;
        oldest := y;
      }
    }
    forall other | other in ids
      ensures Before(t, oldest, other)
    {
      if other !in rest {
      }
    }
  }

  lemma OldestIsThere(t: Table)
    requires PendingIds(t) != {}
    ensures exists id :: id in PendingIds(t) && forall other | other in PendingIds(t) :: Before(t, id, other)
  {
    var oldest := OldestExists(t, PendingIds(t));
  }

  /** The SELECT of `claim_next`: the oldest pending job, if there is one. */
  function Oldest(t: Table): (r: Option<nat>)
    ensures r.None? <==> PendingIds(t) == {}
    ensures r.Some? ==> IsOldest(t, r.value)
  {
    if PendingIds(t) == {} then None
    else
      OldestIsThere(t);
      var id :| id in PendingIds(t) && forall other | other in PendingIds(t) :: Before(t, id, other);
      Some(id)
  }

  /** How a call of `claim_next` ended: the table it left, the job it won, the table its last
      SELECT saw, and how many candidates it lost on the way. */
  datatype ClaimRun = ClaimRun(table: Table, won: Option<nat>, snapshot: Table, retries: nat)

  /** `claim_next` with other actors between each SELECT and its UPDATE: `others[k]` is what they
      do during round k; after the last round nobody interferes.  `clock[k]` is the k-th `_utcnow()`. */
  function ClaimNextRun(t: Table, worker: string, others: seq<seq<Op>>, clock: nat -> int, round: nat): ClaimRun
    decreases |others| - round
  {
    var candidate := Oldest(t);
    if candidate.None? then ClaimRun(t, None, t, 0)
    else
      var t' := if round < |others| then Run(t, others[round]) else t;
      var (t'', outcome) := Apply(t', ClaimCandidate(candidate.value, worker, clock(round)));
      if outcome == Done || round >= |others| then ClaimRun(t'', candidate, t, 0)
      else
        var rest := ClaimNextRun(t'', worker, others, clock, round + 1);
        rest.(retries := rest.retries + 1)
  }

  /** How many steps of `ops` take some job out of `pending`. */
  ghost function Takes(t: Table, ops: seq<Op>): nat
    decreases |ops|
  {
    if ops == [] then 0
    else
      var t' := Apply(t, ops[0]).0;
      (if exists id :: id in PendingIds(t) && id !in PendingIds(t') then 1 else 0) + Takes(t', ops[1..])
  }

  lemma {:induction false} LostCandidateWasTaken(t: Table, ops: seq<Op>, id: nat)
    requires id in PendingIds(t) && id !in PendingIds(Run(t, ops))
    ensures Takes(t, ops) >= 1
    decreases |ops|
  {
    if ops != [] && id in PendingIds(Apply(t, ops[0]).0) {
      LostCandidateWasTaken(Apply(t, ops[0]).0, ops[1..], id);
    }
  }

  /** The takes of the rounds a call goes through. */
  ghost function RoundTakes(t: Table, worker: string, others: seq<seq<Op>>, clock: nat -> int, round: nat): nat
    decreases |others| - round
  {
    var candidate := Oldest(t);
    if candidate.None? || round >= |others| then 0
    else
      var t' := Run(t, others[round]);
      var (t'', outcome) := Apply(t', ClaimCandidate(candidate.value, worker, clock(round)));
      Takes(t, others[round]) + if outcome == Done then 0 else RoundTakes(t'', worker, others, clock, round + 1)
  }

  /** `claim_next` wins the oldest job of its last SELECT, finds nothing only when nothing was
      pending, and loses a candidate only to a step that took a job out of `pending`. */
  lemma {:induction false} ClaimNextCorrect(t: Table, worker: string, others: seq<seq<Op>>, clock: nat -> int, round: nat)
    ensures var r := ClaimNextRun(t, worker, others, clock, round);
            && (r.won.Some? ==> IsOldest(r.snapshot, r.won.value)
                                && r.won.value in r.table && HeldBy(r.table[r.won.value], worker))
            && (r.won.None? ==> r.table == r.snapshot && PendingIds(r.snapshot) == {})
            && r.retries <= RoundTakes(t, worker, others, clock, round)
    decreases |others| - round
  {
    var candidate := Oldest(t);
    if candidate.Some? && round < |others| {
      var t' := Run(t, others[round]);
      var (t'', outcome) := Apply(t', ClaimCandidate(candidate.value, worker, clock(round)));
      if outcome != Done {
        LostCandidateWasTaken(t, others[round], candidate.value);
        ClaimNextCorrect(t'', worker, others, clock, round + 1);
      }
    }
  }

  /** No two claimers win the same pending spell: between two claims of a job in one run, some
      step put it back to `pending`. */
  lemma {:induction false} OneWinnerPerSpell(t: Table, ops: seq<Op>, id: nat, first: nat, second: nat)
    requires first < second < |ops| && ops[first].ClaimCandidate? && ops[second].ClaimCandidate?
    requires ops[first].id == ops[second].id == id
    requires Apply(Run(t, ops[..first]), ops[first]).1 == Done
    requires Apply(Run(t, ops[..second]), ops[second]).1 == Done
    ensures exists k :: first < k < second && id !in PendingIds(Run(t, ops[..k])) && id in PendingIds(Run(t, ops[..k + 1]))
  {
    RunExtends(t, ops, first);
    assert id in PendingIds(Run(t, ops[..second]));
    var k := first + 1;
    while id !in PendingIds(Run(t, ops[..k + 1]))
      invariant first < k < second
      invariant id !in PendingIds(Run(t, ops[..k]))
      decreases second - k
    {
      assert k + 1 != second;
      k := k + 1;
    }
  }

  lemma {:induction false} RunExtends(t: Table, ops: seq<Op>, k: nat)
    requires k < |ops|
    ensures Run(t, ops[..k + 1]) == Apply(Run(t, ops[..k]), ops[k]).0
    decreases |ops|
  {
    if k == 0 {
      assert ops[..1][1..] == [];
    } else {
      assert ops[..k + 1][1..] == ops[1..][..k] && ops[..k][1..] == ops[1..][..k - 1];
      RunExtends(Apply(t, ops[0]).0, ops[1..], k - 1);
    }
  }
}
