/** How a run ends: one release, as its last act. */
module RemediationOutcomes {
  import opened Options
  import opened Remediation
  import opened RemediationSafety

  // ----- every uncrashed run releases the job once -----

  predicate IsFailure(e: Event) {
    e.Log? && !e.entry.ok
  }

  /** The run ends with its only release, to `remediated` exactly if no step failed. */
  ghost predicate Closes(events: seq<Event>) {
    && events != []
    && (forall k | 0 <= k < |events| :: events[k].Release? <==> k == |events| - 1)
    && (events[|events| - 1].status == Remediated <==> forall k | 0 <= k < |events| :: !IsFailure(events[k]))
  }

  ghost predicate StageCloses(s: Stage) {
    if s.proceed then forall k | 0 <= k < |s.events| :: !s.events[k].Release? && !IsFailure(s.events[k])
    else Closes(s.events) && s.events[|s.events| - 1].status == Quarantine
  }

  lemma ClosesStopped(s: Stage, rest: seq<Event>)
    requires !s.proceed && StageCloses(s)
    ensures Closes(Then(s, rest))
  {
    assert Then(s, rest) == s.events;
  }

  lemma ClosesGoingOn(before: seq<Event>, rest: seq<Event>)
    requires (forall k | 0 <= k < |before| :: !before[k].Release? && !IsFailure(before[k])) && Closes(rest)
    ensures Closes(before + rest)
  {
    var events := before + rest;
    assert forall k | 0 <= k < |rest| :: events[k + |before|] == rest[k];
    assert forall k | |before| <= k < |events| :: events[k] == rest[k - |before|];
  }

  lemma ClosesThen(s: Stage, rest: seq<Event>)
    requires StageCloses(s) && Closes(rest)
    ensures Closes(Then(s, rest))
  {
    if s.proceed {
      ClosesGoingOn(s.events, rest);
    } else {
      ClosesStopped(s, rest);
    }
  }

  lemma RefuseCloses(cfg: Config, step: Step, detail: string)
    ensures StageCloses(Refuse(cfg, step, detail)) && Closes(Refuse(cfg, step, detail).events)
  {
    assert IsFailure(Refuse(cfg, step, detail).events[0]);
  }

  lemma CallCloses(cfg: Config, step: Step, call: Call, reply: Reply, detail: string, failure: string)
    ensures StageCloses(CallStage(cfg, step, call, reply, detail, failure))
  {
    if !cfg.clientDry && reply.Failed? {
      assert IsFailure(CallStage(cfg, step, call, reply, detail, failure).events[1]);
    }
  }

  lemma TrashCloses(cfg: Config, a: Answers, t: Texts)
    ensures StageCloses(TrashStage(cfg, a, t))
  {
    if !TrashStage(cfg, a, t).proceed {
      assert IsFailure(TrashStage(cfg, a, t).events[1]);
    }
  }

  lemma HardlinkCloses(cfg: Config, a: Answers, t: Texts)
    ensures StageCloses(HardlinkStage(cfg, a, t))
  {
    if !HardlinkStage(cfg, a, t).proceed {
      assert IsFailure(HardlinkStage(cfg, a, t).events[1]);
    }
  }

  lemma ReplaceCloses(cfg: Config, file: File, a: Answers, t: Texts)
    ensures Closes(ReplaceEvents(cfg, file, a, t))
  {
    var mark, trash := MarkStage(cfg, file, a, t), TrashStage(cfg, a, t);
    var delete, search := ReplaceDeleteStage(cfg, a, t), SearchStage(cfg, a, t);
    assert StageCloses(mark) by {
      CallCloses(cfg, MarkHistoryFailed, MarkFailed, a.mark, t.marked, "");
    }
    assert StageCloses(trash) by {
      TrashCloses(cfg, a, t);
    }
    assert StageCloses(delete) by {
      CallCloses(cfg, DeleteEpisodeFile, DeleteFile, a.delete, t.removed, "");
    }
    assert StageCloses(search) by {
      CallCloses(cfg, EpisodeSearch, Search, a.search, t.searched, "");
    }
    DoneCloses();
    FourClose(mark, trash, delete, search, [Release(Remediated)]);
  }

  lemma DoneCloses()
    ensures Closes([Release(Remediated)])
  {
  }

  lemma FourClose(s1: Stage, s2: Stage, s3: Stage, s4: Stage, rest: seq<Event>)
    requires StageCloses(s1) && StageCloses(s2) && StageCloses(s3) && StageCloses(s4) && Closes(rest)
    ensures Closes(Then(s1, Then(s2, Then(s3, Then(s4, rest)))))
  {
    ClosesThen(s4, rest);
    ClosesThen(s3, Then(s4, rest));
    ClosesThen(s2, Then(s3, Then(s4, rest)));
    ClosesThen(s1, Then(s2, Then(s3, Then(s4, rest))));
  }

  lemma TailCloses(cfg: Config, name: string, a: Answers, t: Texts)
    ensures Closes(RemapTail(cfg, name, a, t))
  {
    if !cfg.dry {
      var done := [Release(Remediated)];
      assert Closes(done);
      CallCloses(cfg, ExecuteManualImport, Import, a.imported, t.imported, t.stagingFailure);
      ClosesThen(ImportStage(cfg, a, t), done);
      if a.candidates.ListFailed? {
        RefuseCloses(cfg, ManualImportCandidates, a.candidates.message + t.stagingFailure);
      } else {
        RefuseCloses(cfg, ManualImportCandidates, t.unmatched + t.stagingFailure);
      }
      ClosesThen(CandidatesStage(cfg, name, a, t), Then(ImportStage(cfg, a, t), done));
    }
  }

  lemma TargetCloses(cfg: Config, targets: set<nat>, resolved: seq<Episode>)
    ensures StageCloses(TargetStage(cfg, targets, resolved))
  {
    RefuseCloses(cfg, EpisodeResolution, UNKNOWN_TARGET);
    RefuseCloses(cfg, OccupiedCheck, OCCUPIED_TARGET);
  }

  lemma RemapCloses(cfg: Config, targets: set<nat>, resolved: seq<Episode>, name: string, a: Answers, t: Texts)
    ensures Closes(RemapEvents(cfg, targets, resolved, name, a, t))
  {
    var delete, tail := RemapDeleteStage(cfg, a, t), RemapTail(cfg, name, a, t);
    TailCloses(cfg, name, a, t);
    CallCloses(cfg, DeleteEpisodeFile, DeleteFile, a.delete, t.released, t.stagingFailure);
    HardlinkCloses(cfg, a, t);
    TargetCloses(cfg, targets, resolved);
    ClosesThen(delete, tail);
    ClosesThen(HardlinkStage(cfg, a, t), Then(delete, tail));
    ClosesThen(TargetStage(cfg, targets, resolved), Then(HardlinkStage(cfg, a, t), Then(delete, tail)));
  }

  /** A run that raises before it has done anything. */
  predicate Raises(x: Attempt, log: seq<Entry>) {
    !WasInterrupted(log) && x.req == Remap({})
  }

  /** A run that does not crash releases its job exactly once, as its last act, and to `remediated`
      exactly if it logged no failure; the one run that does not is an unguarded remap to nothing. */
  lemma ReleasedOnce(x: Attempt, log: seq<Entry>)
    ensures Closes(Planned(x, log)) <==> !Raises(x, log)
  {
    if WasInterrupted(log) {
      RefuseCloses(x.cfg, InterruptionGuard, GUARD_NOTE);
    } else {
      match x.req
      case Replace => ReplaceCloses(x.cfg, x.file, x.answers, TextsFor(x.cfg, x.file, [], x.answers));
      case Remap(targets) =>
        var resolved := Resolved(targets, x.answers.episodes);
        RemapCloses(x.cfg, targets, resolved, StagedName(x.file, resolved), x.answers,
                    TextsFor(x.cfg, x.file, resolved, x.answers));
    }
  }
}
