/**
 `Remediator` as `remediate.py` writes it: straight-line methods that act, log and return early.
 `trace` records what reached Sonarr, the disk and the database, in order; each method is proved to
 produce exactly the events of `Remediation.RunEvents`, and exactly their entries in the verdict's log.
 */
module Remediators {
  import opened Options
  import opened Remediation
  import opened RemapTargets

  class Verdict {
    var log: seq<Entry>
    var proposed: Option<set<nat>>

    constructor ()
      ensures log == [] && proposed == None
    {
      log := [];
      proposed := None;
    }
  }

  class Remediator {
    const cfg: Config
    var trace: seq<Event>

    constructor (cfg: Config)
      ensures this.cfg == cfg && trace == []
    {
      this.cfg := cfg;
      trace := [];
    }

    /** Since trace `t0` and log `l0`, the log has grown by exactly the entries traced. */
    ghost predicate InStep(verdict: Verdict, t0: seq<Event>, l0: seq<Entry>)
      reads this, verdict
    {
      t0 <= trace && verdict.log == l0 + Logged(trace[|t0|..])
    }

    /** `_log`: append one entry, prefixed in dry-run mode, and commit. */
    method LogStep(verdict: Verdict, step: Step, ok: bool, detail: string, trashRow: bool,
                   ghost t0: seq<Event>, ghost l0: seq<Entry>)
      requires InStep(verdict, t0, l0)
      modifies this`trace, verdict`log
      ensures InStep(verdict, t0, l0)
      ensures trace == old(trace) + [Log(Entry(step, ok, if cfg.dry then DRY_PREFIX + detail else detail), trashRow)]
    {
      var text := detail;
      if cfg.dry {
        text := DRY_PREFIX + detail;
      }
      var entry := Entry(step, ok, text);
      verdict.log := verdict.log + [entry];
      trace := trace + [Log(entry, trashRow)];
      LoggedConcat(old(trace)[|t0|..], [Log(entry, trashRow)]);
      assert trace[|t0|..] == old(trace)[|t0|..] + [Log(entry, trashRow)];
      assert Logged([Log(entry, trashRow)]) == [entry];
    }

    /** Anything that is not a log entry. */
    method Act(e: Event, ghost verdict: Verdict, ghost t0: seq<Event>, ghost l0: seq<Entry>)
      requires InStep(verdict, t0, l0) && !e.Log?
      modifies this`trace
      ensures InStep(verdict, t0, l0) && trace == old(trace) + [e]
    {
      trace := trace + [e];
      LoggedConcat(old(trace)[|t0|..], [e]);
      assert trace[|t0|..] == old(trace)[|t0|..] + [e];
    }

    /** A mutating client method: in dry-run mode the client returns without sending anything. */
    method CallSonarr(call: Call, reply: Reply, ghost verdict: Verdict, ghost t0: seq<Event>, ghost l0: seq<Entry>)
      returns (error: Option<string>)
      requires InStep(verdict, t0, l0)
      modifies this`trace
      ensures InStep(verdict, t0, l0)
      ensures error == if !cfg.clientDry && reply.Failed? then Some(reply.message) else None
      ensures trace == old(trace) + if cfg.clientDry then [] else
                         [Mutate(call, reply.Accepted?, reply.Accepted? || reply.took)]
    {
      if cfg.clientDry {
        return None;
      }
      Act(Mutate(call, reply.Accepted?, reply.Accepted? || reply.took), verdict, t0, l0);
      return if reply.Failed? then Some(reply.message) else None;
    }

    /** `mkdir`, then `link`, then across devices `copy2`. */
    method Preserve(place: Place, disk: Disk, ghost verdict: Verdict, ghost t0: seq<Event>, ghost l0: seq<Entry>)
      returns (error: Option<string>)
      requires InStep(verdict, t0, l0)
      modifies this`trace
      ensures InStep(verdict, t0, l0)
      ensures error == PreserveError(disk) && trace == old(trace) + [Copied(place, error.None?)]
    {
      if disk.mkdirError.Some? {
        error := disk.mkdirError;
      } else {
        match disk.link
        case Linked => error := None;
        case CrossDevice => error := disk.copyError;
        case LinkFailed(message) => error := Some(message);
      }
      Act(Copied(place, error.None?), verdict, t0, l0);
    }

    /** Log a failed step and give the job back for review. */
    method Quarantine(verdict: Verdict, step: Step, detail: string, ghost t0: seq<Event>, ghost l0: seq<Entry>)
      requires InStep(verdict, t0, l0)
      modifies this`trace, verdict`log
      ensures InStep(verdict, t0, l0) && trace == old(trace) + Refuse(cfg, step, detail).events
    {
      LogStep(verdict, step, false, detail, false, t0, l0);
      Act(Release(JobStatus.Quarantine), verdict, t0, l0);
    }

    /** One mutating call: on failure the run ends here, otherwise its step is logged. */
    method CallStep(verdict: Verdict, step: Step, call: Call, reply: Reply, detail: string, failure: string,
                    ghost t0: seq<Event>, ghost l0: seq<Entry>)
      returns (proceed: bool)
      requires InStep(verdict, t0, l0)
      modifies this`trace, verdict`log
      ensures InStep(verdict, t0, l0)
      ensures var s := CallStage(cfg, step, call, reply, detail, failure);
              proceed == s.proceed && trace == old(trace) + s.events
    {
      CallRuns(trace, cfg, step, call, reply, detail, failure);
      var error := CallSonarr(call, reply, verdict, t0, l0);
      if error.Some? {
        Quarantine(verdict, step, error.value + failure, t0, l0);
        return false;
      }
      LogStep(verdict, step, true, detail, false, t0, l0);
      return true;
    }

    method MarkStep(verdict: Verdict, file: File, a: Answers, t: Texts, ghost t0: seq<Event>, ghost l0: seq<Entry>)
      returns (proceed: bool)
      requires InStep(verdict, t0, l0)
      modifies this`trace, verdict`log
      ensures InStep(verdict, t0, l0)
      ensures proceed == MarkStage(cfg, file, a, t).proceed && trace == old(trace) + MarkStage(cfg, file, a, t).events
    {
      if file.historyId.Some? {
        proceed := CallStep(verdict, MarkHistoryFailed, MarkFailed, a.mark, t.marked, "", t0, l0);
      } else {
        LogStep(verdict, MarkHistoryFailed, true, NO_HISTORY_NOTE, false, t0, l0);
        proceed := true;
      }
    }

    method TrashStep(verdict: Verdict, a: Answers, t: Texts, ghost t0: seq<Event>, ghost l0: seq<Entry>)
      returns (proceed: bool)
      requires InStep(verdict, t0, l0)
      modifies this`trace, verdict`log
      ensures InStep(verdict, t0, l0)
      ensures proceed == TrashStage(cfg, a, t).proceed && trace == old(trace) + TrashStage(cfg, a, t).events
    {
      if !cfg.trash {
        return true;
      }
      if cfg.dry {
        LogStep(verdict, Trash, true, t.wouldTrash, false, t0, l0);
        return true;
      }
      var error := Preserve(TrashDir, a.trashDisk, verdict, t0, l0);
      if error.Some? {
        Quarantine(verdict, Trash, error.value + t.trashFailure, t0, l0);
        return false;
      }
      LogStep(verdict, Trash, true, t.trashed, true, t0, l0);
      return true;
    }

    method Replace(verdict: Verdict, file: File, a: Answers)
      modifies this`trace, verdict`log
      ensures trace == old(trace) + RunEvents(Request.Replace, cfg, file, a, old(verdict.log))
      ensures verdict.log == old(verdict.log) + Logged(RunEvents(Request.Replace, cfg, file, a, old(verdict.log)))
    {
      ghost var t0, l0 := trace, verdict.log;
      assert trace[|t0|..] == [];
      if WasInterrupted(verdict.log) {
        Quarantine(verdict, InterruptionGuard, GUARD_NOTE, t0, l0);
        assert trace[|t0|..] == GuardEvents(cfg);
        return;
      }
      var t := TextsFor(cfg, file, [], a);
      ReplaceSteps(verdict, file, a, t, t0, l0);
      assert trace[|t0|..] == ReplaceEvents(cfg, file, a, t);
    }

    method ReplaceSteps(verdict: Verdict, file: File, a: Answers, t: Texts, ghost t0: seq<Event>, ghost l0: seq<Entry>)
      requires InStep(verdict, t0, l0)
      modifies this`trace, verdict`log
      ensures InStep(verdict, t0, l0) && trace == old(trace) + ReplaceEvents(cfg, file, a, t)
    {
      ghost var mark, trash := MarkStage(cfg, file, a, t), TrashStage(cfg, a, t);
      ghost var delete, search := ReplaceDeleteStage(cfg, a, t), SearchStage(cfg, a, t);
      ghost var done := [Release(Remediated)];
      StagesRun(old(trace), mark, trash, delete, search, done);
      var proceed := MarkStep(verdict, file, a, t, t0, l0);
      if !proceed { return; }
      proceed := TrashStep(verdict, a, t, t0, l0);
      if !proceed { return; }
      proceed := CallStep(verdict, DeleteEpisodeFile, DeleteFile, a.delete, t.removed, "", t0, l0);
      if !proceed { return; }
      proceed := CallStep(verdict, EpisodeSearch, Search, a.search, t.searched, "", t0, l0);
      if !proceed { return; }
      Act(Release(Remediated), verdict, t0, l0);
    }

    method HardlinkStep(verdict: Verdict, a: Answers, t: Texts, ghost t0: seq<Event>, ghost l0: seq<Entry>)
      returns (proceed: bool)
      requires InStep(verdict, t0, l0)
      modifies this`trace, verdict`log
      ensures InStep(verdict, t0, l0)
      ensures proceed == HardlinkStage(cfg, a, t).proceed && trace == old(trace) + HardlinkStage(cfg, a, t).events
    {
      if !cfg.dry {
        var error := Preserve(Staging, a.stagingDisk, verdict, t0, l0);
        if error.Some? {
          Quarantine(verdict, Hardlink, error.value + t.stagingFailure, t0, l0);
          return false;
        }
      }
      LogStep(verdict, Hardlink, true, t.staged, false, t0, l0);
      return true;
    }

    method CandidatesStep(verdict: Verdict, name: string, a: Answers, t: Texts, ghost t0: seq<Event>, ghost l0: seq<Entry>)
      returns (proceed: bool)
      requires InStep(verdict, t0, l0)
      modifies this`trace, verdict`log
      ensures InStep(verdict, t0, l0)
      ensures proceed == CandidatesStage(cfg, name, a, t).proceed
      ensures trace == old(trace) + CandidatesStage(cfg, name, a, t).events
    {
      if a.candidates.ListFailed? {
        Quarantine(verdict, ManualImportCandidates, a.candidates.message + t.stagingFailure, t0, l0);
        return false;
      }
      if name !in a.candidates.names {
        Quarantine(verdict, ManualImportCandidates, t.unmatched + t.stagingFailure, t0, l0);
        return false;
      }
      LogStep(verdict, ManualImportCandidates, true, t.matched, false, t0, l0);
      return true;
    }

    method Remap(verdict: Verdict, file: File, targets: set<nat>, a: Answers) returns (raised: bool)
      modifies this`trace, verdict
      ensures trace == old(trace) + RunEvents(Request.Remap(targets), cfg, file, a, old(verdict.log))
      ensures verdict.log == old(verdict.log) + Logged(RunEvents(Request.Remap(targets), cfg, file, a, old(verdict.log)))
      ensures verdict.proposed ==
              if !WasInterrupted(old(verdict.log)) && !Unknown(targets, a.episodes) && Taken(targets, a.episodes)
              then Some(targets) else old(verdict.proposed)
      ensures raised <==> !WasInterrupted(old(verdict.log)) && targets == {}
    {
      ghost var t0, l0 := trace, verdict.log;
      raised := false;
      assert trace[|t0|..] == [];
      if WasInterrupted(verdict.log) {
        Quarantine(verdict, InterruptionGuard, GUARD_NOTE, t0, l0);
        assert trace[|t0|..] == GuardEvents(cfg);
        return;
      }
      var resolved := Resolved(targets, a.episodes);
      TargetMeaning(targets, a.episodes);
      if targets == {} {
        EmptyTargetResolves(a.episodes);
        return true;
      }
      var name := StagedName(file, resolved);
      var t := TextsFor(cfg, file, resolved, a);
      RemapSteps(verdict, targets, resolved, name, a, t, t0, l0);
      assert trace[|t0|..] == RemapEvents(cfg, targets, resolved, name, a, t);
    }

    method TargetStep(verdict: Verdict, targets: set<nat>, resolved: seq<Episode>, ghost t0: seq<Event>, ghost l0: seq<Entry>)
      returns (proceed: bool)
      requires InStep(verdict, t0, l0)
      modifies this`trace, verdict
      ensures InStep(verdict, t0, l0)
      ensures proceed == TargetStage(cfg, targets, resolved).proceed
      ensures trace == old(trace) + TargetStage(cfg, targets, resolved).events
      ensures verdict.proposed == if IsOccupied(targets, resolved) then Some(targets) else old(verdict.proposed)
    {
      if targets - Ids(resolved) != {} {
        Quarantine(verdict, EpisodeResolution, UNKNOWN_TARGET, t0, l0);
        return false;
      }
      if exists ep | ep in resolved :: ep.hasFile {
        LogStep(verdict, OccupiedCheck, false, OCCUPIED_TARGET, false, t0, l0);
        verdict.proposed := Some(targets);
        Act(Release(JobStatus.Quarantine), verdict, t0, l0);
        return false;
      }
      return true;
    }

    method RemapSteps(verdict: Verdict, targets: set<nat>, resolved: seq<Episode>, name: string, a: Answers, t: Texts,
                      ghost t0: seq<Event>, ghost l0: seq<Entry>)
      requires InStep(verdict, t0, l0)
      modifies this`trace, verdict
      ensures InStep(verdict, t0, l0) && trace == old(trace) + RemapEvents(cfg, targets, resolved, name, a, t)
      ensures verdict.proposed == if IsOccupied(targets, resolved) then Some(targets) else old(verdict.proposed)
    {
      RemapRuns(trace, cfg, targets, resolved, name, a, t);
      var proceed := TargetStep(verdict, targets, resolved, t0, l0);
      if !proceed { return; }
      proceed := HardlinkStep(verdict, a, t, t0, l0);
      if !proceed { return; }
      proceed := CallStep(verdict, DeleteEpisodeFile, DeleteFile, a.delete, t.released, t.stagingFailure, t0, l0);
      if !proceed { return; }
      ImportSteps(verdict, name, a, t, t0, l0);
    }

    method ImportSteps(verdict: Verdict, name: string, a: Answers, t: Texts, ghost t0: seq<Event>, ghost l0: seq<Entry>)
      requires InStep(verdict, t0, l0)
      modifies this`trace, verdict`log
      ensures InStep(verdict, t0, l0) && trace == old(trace) + RemapTail(cfg, name, a, t)
    {
      if cfg.dry {
        LogStep(verdict, ManualImport, true, t.imported, false, t0, l0);
        Act(Release(Remediated), verdict, t0, l0);
        return;
      }
      TailRuns(trace, cfg, name, a, t);
      var proceed := CandidatesStep(verdict, name, a, t, t0, l0);
      if !proceed { return; }
      proceed := CallStep(verdict, ExecuteManualImport, Import, a.imported, t.imported, t.stagingFailure, t0, l0);
      if !proceed { return; }
      Act(Release(Remediated), verdict, t0, l0);
    }
  }

  /** An empty target is neither unknown nor occupied. */
  lemma {:induction false} EmptyTargetResolves(episodes: seq<Episode>)
    ensures Resolved({}, episodes) == []
  {
    if episodes != [] {
      EmptyTargetResolves(episodes[1..]);
    }
  }

  predicate IsOccupied(targets: set<nat>, resolved: seq<Episode>) {
    targets - Ids(resolved) == {} && exists ep | ep in resolved :: ep.hasFile
  }

  /** Where a run of four stages stands when it stops after each of them. */
  lemma StagesRun(t: seq<Event>, s1: Stage, s2: Stage, s3: Stage, s4: Stage, last: seq<Event>)
    ensures var all := t + Then(s1, Then(s2, Then(s3, Then(s4, last))));
            && (!s1.proceed ==> all == t + s1.events)
            && (s1.proceed && !s2.proceed ==> all == t + s1.events + s2.events)
            && (s1.proceed && s2.proceed && !s3.proceed ==> all == t + s1.events + s2.events + s3.events)
            && (s1.proceed && s2.proceed && s3.proceed && !s4.proceed ==>
                  all == t + s1.events + s2.events + s3.events + s4.events)
            && (s1.proceed && s2.proceed && s3.proceed && s4.proceed ==>
                  all == t + s1.events + s2.events + s3.events + s4.events + last)
  {
  }

  lemma RemapRuns(t0: seq<Event>, cfg: Config, targets: set<nat>, resolved: seq<Episode>, name: string, a: Answers, t: Texts)
    ensures var s1, s2, s3 := TargetStage(cfg, targets, resolved), HardlinkStage(cfg, a, t), RemapDeleteStage(cfg, a, t);
            var all := t0 + RemapEvents(cfg, targets, resolved, name, a, t);
            && (!s1.proceed ==> all == t0 + s1.events)
            && (s1.proceed && !s2.proceed ==> all == t0 + s1.events + s2.events)
            && (s1.proceed && s2.proceed && !s3.proceed ==> all == t0 + s1.events + s2.events + s3.events)
            && (s1.proceed && s2.proceed && s3.proceed ==>
                  all == t0 + s1.events + s2.events + s3.events + RemapTail(cfg, name, a, t))
  {
    ThreeStagesRun(t0, TargetStage(cfg, targets, resolved), HardlinkStage(cfg, a, t), RemapDeleteStage(cfg, a, t),
                   RemapTail(cfg, name, a, t));
  }

  lemma ThreeStagesRun(t: seq<Event>, s1: Stage, s2: Stage, s3: Stage, last: seq<Event>)
    ensures var all := t + Then(s1, Then(s2, Then(s3, last)));
            && (!s1.proceed ==> all == t + s1.events)
            && (s1.proceed && !s2.proceed ==> all == t + s1.events + s2.events)
            && (s1.proceed && s2.proceed && !s3.proceed ==> all == t + s1.events + s2.events + s3.events)
            && (s1.proceed && s2.proceed && s3.proceed ==> all == t + s1.events + s2.events + s3.events + last)
  {
  }

  lemma TailRuns(t0: seq<Event>, cfg: Config, name: string, a: Answers, t: Texts)
    requires !cfg.dry
    ensures var s1, s2 := CandidatesStage(cfg, name, a, t), ImportStage(cfg, a, t);
            var all := t0 + RemapTail(cfg, name, a, t);
            && (!s1.proceed ==> all == t0 + s1.events)
            && (s1.proceed && !s2.proceed ==> all == t0 + s1.events + s2.events)
            && (s1.proceed && s2.proceed ==> all == t0 + s1.events + s2.events + [Release(Remediated)])
  {
    TwoStagesRun(t0, CandidatesStage(cfg, name, a, t), ImportStage(cfg, a, t), [Release(Remediated)]);
  }

  lemma TwoStagesRun(t: seq<Event>, s1: Stage, s2: Stage, last: seq<Event>)
    ensures var all := t + Then(s1, Then(s2, last));
            && (!s1.proceed ==> all == t + s1.events)
            && (s1.proceed && !s2.proceed ==> all == t + s1.events + s2.events)
            && (s1.proceed && s2.proceed ==> all == t + s1.events + s2.events + last)
  {
  }

  lemma CallRuns(t0: seq<Event>, cfg: Config, step: Step, call: Call, reply: Reply, detail: string, failure: string)
    ensures var all := t0 + CallStage(cfg, step, call, reply, detail, failure).events;
            if cfg.clientDry then all == t0 + [] + [LogEvent(cfg, step, true, detail)]
            else if reply.Accepted? then all == t0 + [Mutate(call, true, true)] + [LogEvent(cfg, step, true, detail)]
            else all == t0 + [Mutate(call, false, reply.took)] + Refuse(cfg, step, reply.message + failure).events
  {
  }
}
