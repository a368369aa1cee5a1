/** Dry runs: what they leave alone, and how they end. */
module DryRuns {
  import opened Options
  import opened Remediation
  import opened RemediationSafety
  import opened RemapTargets
  import Queue = JobQueue

  predicate IsDry(x: Attempt) {
    x.cfg.dry && x.cfg.clientDry
  }

  /** Nothing but prefixed log entries and releases. */
  predicate IsQuiet(e: Event) {
    match e
    case Log(entry, trashRow) => StartsWith(entry.detail, DRY_PREFIX) && !trashRow
    case Release(_) => true
    case _ => false
  }

  ghost predicate Quiet(events: seq<Event>) {
    forall k | 0 <= k < |events| :: IsQuiet(events[k])
  }

  lemma QuietThen(s: Stage, rest: seq<Event>)
    requires Quiet(s.events) && Quiet(rest)
    ensures Quiet(Then(s, rest))
  {
  }

  lemma QuietRefuse(cfg: Config, step: Step, detail: string)
    requires cfg.dry
    ensures Quiet(Refuse(cfg, step, detail).events)
  {
  }

  lemma QuietCall(cfg: Config, step: Step, call: Call, reply: Reply, detail: string, failure: string)
    requires cfg.dry && cfg.clientDry
    ensures Quiet(CallStage(cfg, step, call, reply, detail, failure).events)
  {
  }

  lemma QuietReplace(cfg: Config, file: File, a: Answers, t: Texts)
    requires cfg.dry && cfg.clientDry
    ensures Quiet(ReplaceEvents(cfg, file, a, t))
  {
    var search := Then(SearchStage(cfg, a, t), [Release(Remediated)]);
    var delete := Then(ReplaceDeleteStage(cfg, a, t), search);
    QuietCall(cfg, EpisodeSearch, Search, a.search, t.searched, "");
    QuietCall(cfg, DeleteEpisodeFile, DeleteFile, a.delete, t.removed, "");
    QuietCall(cfg, MarkHistoryFailed, MarkFailed, a.mark, t.marked, "");
    QuietThen(SearchStage(cfg, a, t), [Release(Remediated)]);
    QuietThen(ReplaceDeleteStage(cfg, a, t), search);
    assert Quiet(TrashStage(cfg, a, t).events);
    QuietThen(TrashStage(cfg, a, t), delete);
    assert Quiet(MarkStage(cfg, file, a, t).events);
    QuietThen(MarkStage(cfg, file, a, t), Then(TrashStage(cfg, a, t), delete));
  }

  lemma QuietRemap(cfg: Config, targets: set<nat>, resolved: seq<Episode>, name: string, a: Answers, t: Texts)
    requires cfg.dry && cfg.clientDry
    ensures Quiet(RemapEvents(cfg, targets, resolved, name, a, t))
  {
    var tail := RemapTail(cfg, name, a, t);
    QuietCall(cfg, DeleteEpisodeFile, DeleteFile, a.delete, t.released, t.stagingFailure);
    QuietThen(RemapDeleteStage(cfg, a, t), tail);
    QuietThen(HardlinkStage(cfg, a, t), Then(RemapDeleteStage(cfg, a, t), tail));
    QuietRefuse(cfg, EpisodeResolution, UNKNOWN_TARGET);
    QuietRefuse(cfg, OccupiedCheck, OCCUPIED_TARGET);
    QuietThen(TargetStage(cfg, targets, resolved), Then(HardlinkStage(cfg, a, t), Then(RemapDeleteStage(cfg, a, t), tail)));
  }

  lemma QuietPlan(x: Attempt, log: seq<Entry>)
    requires IsDry(x)
    ensures Quiet(Planned(x, log))
  {
    QuietRefuse(x.cfg, InterruptionGuard, GUARD_NOTE);
    match x.req
    case Replace => QuietReplace(x.cfg, x.file, x.answers, TextsFor(x.cfg, x.file, [], x.answers));
    case Remap(targets) =>
      var resolved := Resolved(targets, x.answers.episodes);
      QuietRemap(x.cfg, targets, resolved, StagedName(x.file, resolved), x.answers,
                 TextsFor(x.cfg, x.file, resolved, x.answers));
  }

  /** A dry run sends Sonarr nothing, copies nothing, commits no trash row and marks every entry. */
  lemma DryRunIsQuiet(x: Attempt, log: seq<Entry>)
    requires IsDry(x)
    ensures Quiet(Planned(x, log)) && Quiet(Happened(x, log))
  {
    QuietPlan(x, log);
    var planned := Planned(x, log);
    forall k | 0 <= k < |Happened(x, log)| ensures IsQuiet(Happened(x, log)[k]) {
      assert Happened(x, log)[k] == planned[k];
    }
  }

  lemma {:induction false} QuietLog(events: seq<Event>)
    requires Quiet(events)
    ensures forall e | e in Logged(events) :: !IsMutatingEntry(e)
  {
    if events != [] {
      assert IsQuiet(events[0]);
      forall k | 0 <= k < |events[1..]| ensures IsQuiet(events[1..][k]) {
        assert IsQuiet(events[k + 1]);
      }
      QuietLog(events[1..]);
    }
  }

  lemma {:induction false} DryRunsDoNotInterrupt(log: seq<Entry>, xs: seq<Attempt>)
    requires forall x | x in xs :: IsDry(x)
    ensures WasInterrupted(LogAfter(log, xs)) <==> WasInterrupted(log)
    decreases |xs|
  {
    if xs != [] {
      var x, before := xs[|xs| - 1], LogAfter(log, xs[..|xs| - 1]);
      DryRunsDoNotInterrupt(log, xs[..|xs| - 1]);
      DryRunIsQuiet(x, before);
      QuietLog(Happened(x, before));
    }
  }

  /** Dry-run transparency: after any number of dry runs, crashed or not, any later run on the same
      verdict makes the same calls, the same copies and the same entries as if they had not been. */
  lemma DryRunsAreInvisible(log: seq<Entry>, xs: seq<Attempt>, later: Attempt)
    requires forall x | x in xs :: IsDry(x)
    ensures Planned(later, LogAfter(log, xs)) == Planned(later, log)
  {
    DryRunsDoNotInterrupt(log, xs);
    SamePlan(later, LogAfter(log, xs), log);
  }

  /** The log matters to a run only through the guard. */
  lemma SamePlan(x: Attempt, log: seq<Entry>, log': seq<Entry>)
    requires WasInterrupted(log) <==> WasInterrupted(log')
    ensures Planned(x, log) == Planned(x, log')
  {
  }

  // ----- how a dry run ends -----

  /** The guard is quiet, and a remap's target is there to be had. */
  predicate Proceeds(x: Attempt, log: seq<Entry>) {
    && !WasInterrupted(log)
    && (x.req.Remap? ==>
          x.req.targets != {} && !Unknown(x.req.targets, x.answers.episodes) && !Taken(x.req.targets, x.answers.episodes))
  }

  predicate EndsWith(events: seq<Event>, status: JobStatus) {
    events != [] && events[|events| - 1] == Release(status)
  }

  lemma EndsThen(s: Stage, rest: seq<Event>, status: JobStatus)
    requires rest != []
    ensures s.proceed ==> (EndsWith(Then(s, rest), status) <==> EndsWith(rest, status))
    ensures !s.proceed ==> (EndsWith(Then(s, rest), status) <==> EndsWith(s.events, status))
  {
    assert !s.proceed ==> Then(s, rest) == s.events;
  }

  lemma DryReplaceEnds(cfg: Config, file: File, a: Answers, t: Texts)
    requires cfg.dry && cfg.clientDry
    ensures EndsWith(ReplaceEvents(cfg, file, a, t), Remediated)
  {
    var done := [Release(Remediated)];
    var mark, trash := MarkStage(cfg, file, a, t), TrashStage(cfg, a, t);
    var delete, search := ReplaceDeleteStage(cfg, a, t), SearchStage(cfg, a, t);
    EndsThen(search, done, Remediated);
    EndsThen(delete, Then(search, done), Remediated);
    EndsThen(trash, Then(delete, Then(search, done)), Remediated);
    EndsThen(mark, Then(trash, Then(delete, Then(search, done))), Remediated);
  }

  lemma DryRemapEnds(cfg: Config, targets: set<nat>, resolved: seq<Episode>, name: string, a: Answers, t: Texts)
    requires cfg.dry && cfg.clientDry
    ensures EndsWith(RemapEvents(cfg, targets, resolved, name, a, t), Remediated) <==>
            targets <= Ids(resolved) && forall ep | ep in resolved :: !ep.hasFile
  {
    var target, hardlink := TargetStage(cfg, targets, resolved), HardlinkStage(cfg, a, t);
    var delete, tail := RemapDeleteStage(cfg, a, t), RemapTail(cfg, name, a, t);
    EndsThen(delete, tail, Remediated);
    EndsThen(hardlink, Then(delete, tail), Remediated);
    EndsThen(target, Then(hardlink, Then(delete, tail)), Remediated);
    forall id | id in targets && targets - Ids(resolved) == {} ensures id in Ids(resolved) {
      assert id !in Ids(resolved) ==> id in targets - Ids(resolved);
    }
  }

  /** A dry run ends in `remediated` exactly if the guard is quiet and, for a remap, the target is not
      empty, known and free: nothing Sonarr or the disk could answer matters. */
  lemma DryRunSucceedsIff(x: Attempt, log: seq<Entry>)
    requires IsDry(x)
    ensures EndsWith(Planned(x, log), Remediated) <==> Proceeds(x, log)
  {
    if !WasInterrupted(log) {
      match x.req
      case Replace => DryReplaceEnds(x.cfg, x.file, x.answers, TextsFor(x.cfg, x.file, [], x.answers));
      case Remap(targets) =>
        var resolved := Resolved(targets, x.answers.episodes);
        TargetMeaning(targets, x.answers.episodes);
        DryRemapEnds(x.cfg, targets, resolved, StagedName(x.file, resolved), x.answers,
                     TextsFor(x.cfg, x.file, resolved, x.answers));
    }
  }

  /** But there may be no later run.  A dry run that proceeds releases its job to `remediated`; once its
      holder has done that, no series of queue calls, dry-run switched off or not, takes the job out again. */
  lemma DryRunSuccessIsFinal(x: Attempt, log: seq<Entry>, t: Queue.Table, id: nat, worker: string, ops: seq<Queue.Op>)
    requires IsDry(x) && Proceeds(x, log)
    requires Queue.QueueInv(t) && id in t && Queue.HeldBy(t[id], worker)
    requires forall op | op in ops :: Queue.AsCalled(op)
    ensures EndsWith(Planned(x, log), Remediated)
    ensures var released := Queue.Apply(t, Queue.Release(id, Queue.Active, Queue.Remediated, worker));
            && released.1 == Queue.Done
            && id in Queue.Run(released.0, ops) && Queue.Run(released.0, ops)[id].status == Queue.Remediated
  {
    DryRunSucceedsIff(x, log);
    RemediatedIsFinal(t, id, worker, ops);
  }

  lemma RemediatedIsFinal(t: Queue.Table, id: nat, worker: string, ops: seq<Queue.Op>)
    requires Queue.QueueInv(t) && id in t && Queue.HeldBy(t[id], worker)
    requires forall op | op in ops :: Queue.AsCalled(op)
    ensures var released := Queue.Apply(t, Queue.Release(id, Queue.Active, Queue.Remediated, worker));
            && released.1 == Queue.Done
            && id in Queue.Run(released.0, ops) && Queue.Run(released.0, ops)[id].status == Queue.Remediated
  {
    var release := Queue.Release(id, Queue.Active, Queue.Remediated, worker);
    Queue.StepIsSafe(t, release);
    Queue.QueueSafety(Queue.Apply(t, release).0, ops);
  }
}
