/** How a remediation ends, told from what Sonarr and the disk answer, and what its entries and names tell. */
module RemediationResults {
  import opened Options
  import opened Decimal
  import opened Remediation
  import opened RemediationSafety
  import opened RemapTargets
  import opened DryRuns

  // ----- success -----

  /** Linked, or copied where a link cannot be made; not without the directory. */
  predicate Preserves(d: Disk) {
    d.mkdirError.None? && (d.link == Linked || (d.link == CrossDevice && d.copyError.None?))
  }

  predicate CallWorks(cfg: Config, reply: Reply) {
    cfg.clientDry || reply.Accepted?
  }

  predicate ReplaceWorks(cfg: Config, file: File, a: Answers) {
    && (file.historyId.Some? ==> CallWorks(cfg, a.mark))
    && (cfg.trash && !cfg.dry ==> Preserves(a.trashDisk))
    && CallWorks(cfg, a.delete) && CallWorks(cfg, a.search)
  }

  predicate RemapWorks(cfg: Config, file: File, targets: set<nat>, a: Answers) {
    && targets != {} && !Unknown(targets, a.episodes) && !Taken(targets, a.episodes)
    && (!cfg.dry ==> Preserves(a.stagingDisk))
    && CallWorks(cfg, a.delete)
    && (!cfg.dry ==>
          && a.candidates.Listed? && StagedName(file, Resolved(targets, a.episodes)) in a.candidates.names
          && CallWorks(cfg, a.imported))
  }

  /** The stage lets the run go on exactly if this is so, and otherwise ends it in quarantine. */
  ghost predicate Goes(s: Stage, works: bool) {
    s.proceed == works && (!works ==> EndsWith(s.events, Quarantine))
  }

  ghost predicate Ends(events: seq<Event>, works: bool) {
    EndsWith(events, if works then Remediated else Quarantine)
  }

  lemma GoesThen(s: Stage, works: bool, rest: seq<Event>, restWorks: bool)
    requires Goes(s, works) && Ends(rest, restWorks)
    ensures Ends(Then(s, rest), works && restWorks)
  {
    assert !s.proceed ==> Then(s, rest) == s.events;
  }

  lemma CallGoes(cfg: Config, step: Step, call: Call, reply: Reply, detail: string, failure: string)
    ensures Goes(CallStage(cfg, step, call, reply, detail, failure), CallWorks(cfg, reply))
  {
  }

  lemma PreserveIff(d: Disk)
    ensures PreserveError(d).None? <==> Preserves(d)
  {
  }

  lemma ReplaceEnds(cfg: Config, file: File, a: Answers, t: Texts)
    ensures Ends(ReplaceEvents(cfg, file, a, t), ReplaceWorks(cfg, file, a))
  {
    var done := [Release(Remediated)];
    var trashed, marked := cfg.trash && !cfg.dry ==> Preserves(a.trashDisk), file.historyId.Some? ==> CallWorks(cfg, a.mark);
    var search := Then(SearchStage(cfg, a, t), done);
    var delete := Then(ReplaceDeleteStage(cfg, a, t), search);
    CallGoes(cfg, EpisodeSearch, Search, a.search, t.searched, "");
    GoesThen(SearchStage(cfg, a, t), CallWorks(cfg, a.search), done, true);
    CallGoes(cfg, DeleteEpisodeFile, DeleteFile, a.delete, t.removed, "");
    GoesThen(ReplaceDeleteStage(cfg, a, t), CallWorks(cfg, a.delete), search, CallWorks(cfg, a.search));
    TrashGoes(cfg, a, t);
    GoesThen(TrashStage(cfg, a, t), trashed, delete, CallWorks(cfg, a.delete) && CallWorks(cfg, a.search));
    MarkGoes(cfg, file, a, t);
    GoesThen(MarkStage(cfg, file, a, t), marked, Then(TrashStage(cfg, a, t), delete),
             trashed && CallWorks(cfg, a.delete) && CallWorks(cfg, a.search));
  }

  lemma TrashGoes(cfg: Config, a: Answers, t: Texts)
    ensures Goes(TrashStage(cfg, a, t), cfg.trash && !cfg.dry ==> Preserves(a.trashDisk))
  {
    PreserveIff(a.trashDisk);
  }

  lemma MarkGoes(cfg: Config, file: File, a: Answers, t: Texts)
    ensures Goes(MarkStage(cfg, file, a, t), file.historyId.Some? ==> CallWorks(cfg, a.mark))
  {
    CallGoes(cfg, MarkHistoryFailed, MarkFailed, a.mark, t.marked, "");
  }

  lemma TailEnds(cfg: Config, name: string, a: Answers, t: Texts)
    ensures Ends(RemapTail(cfg, name, a, t),
                 !cfg.dry ==> a.candidates.Listed? && name in a.candidates.names && CallWorks(cfg, a.imported))
  {
    if !cfg.dry {
      CallGoes(cfg, ExecuteManualImport, Import, a.imported, t.imported, t.stagingFailure);
      GoesThen(ImportStage(cfg, a, t), CallWorks(cfg, a.imported), [Release(Remediated)], true);
      GoesThen(CandidatesStage(cfg, name, a, t), a.candidates.Listed? && name in a.candidates.names,
               Then(ImportStage(cfg, a, t), [Release(Remediated)]), CallWorks(cfg, a.imported));
    }
  }

  lemma HardlinkGoes(cfg: Config, a: Answers, t: Texts)
    ensures Goes(HardlinkStage(cfg, a, t), !cfg.dry ==> Preserves(a.stagingDisk))
  {
    PreserveIff(a.stagingDisk);
  }

  lemma TargetGoes(cfg: Config, targets: set<nat>, episodes: seq<Episode>)
    ensures Goes(TargetStage(cfg, targets, Resolved(targets, episodes)), !Unknown(targets, episodes) && !Taken(targets, episodes))
  {
    TargetMeaning(targets, episodes);
  }

  lemma RemapEnds(cfg: Config, file: File, targets: set<nat>, a: Answers, t: Texts)
    requires targets != {}
    ensures var resolved := Resolved(targets, a.episodes);
            Ends(RemapEvents(cfg, targets, resolved, StagedName(file, resolved), a, t), RemapWorks(cfg, file, targets, a))
  {
    var resolved := Resolved(targets, a.episodes);
    var name := StagedName(file, resolved);
    var tail, tailWorks := RemapTail(cfg, name, a, t),
                           !cfg.dry ==> a.candidates.Listed? && name in a.candidates.names && CallWorks(cfg, a.imported);
    var delete := Then(RemapDeleteStage(cfg, a, t), tail);
    var staged, free := !cfg.dry ==> Preserves(a.stagingDisk), !Unknown(targets, a.episodes) && !Taken(targets, a.episodes);
    TailEnds(cfg, name, a, t);
    CallGoes(cfg, DeleteEpisodeFile, DeleteFile, a.delete, t.released, t.stagingFailure);
    GoesThen(RemapDeleteStage(cfg, a, t), CallWorks(cfg, a.delete), tail, tailWorks);
    HardlinkGoes(cfg, a, t);
    GoesThen(HardlinkStage(cfg, a, t), staged, delete, CallWorks(cfg, a.delete) && tailWorks);
    TargetGoes(cfg, targets, a.episodes);
    GoesThen(TargetStage(cfg, targets, resolved), free, Then(HardlinkStage(cfg, a, t), delete),
             staged && CallWorks(cfg, a.delete) && tailWorks);
  }

  /** When a remediation succeeds, told from the answers: a replace exactly if the blocklist call, the trash copy,
      the delete and the search go through, as far as they are to be made; a remap exactly if its target is known
      and free, the staging copy and the delete go through, and Sonarr offers the staged file and imports it.  Any
      other remediation ends in quarantine, or raises for the empty target. */
  lemma SucceedsIff(x: Attempt, log: seq<Entry>)
    ensures var works := !WasInterrupted(log)
                         && match x.req
                            case Replace => ReplaceWorks(x.cfg, x.file, x.answers)
                            case Remap(targets) => RemapWorks(x.cfg, x.file, targets, x.answers);
            && (EndsWith(Planned(x, log), Remediated) <==> works)
            && (!works && !(!WasInterrupted(log) && x.req == Remap({})) ==> EndsWith(Planned(x, log), Quarantine))
  {
    if !WasInterrupted(log) {
      match x.req
      case Replace => ReplaceEnds(x.cfg, x.file, x.answers, TextsFor(x.cfg, x.file, [], x.answers));
      case Remap(targets) =>
        if targets != {} {
          RemapEnds(x.cfg, x.file, targets, x.answers, TextsFor(x.cfg, x.file, Resolved(targets, x.answers.episodes), x.answers));
        }
    } else {
      GuardIsQuiet(x.cfg);
    }
  }

  // ----- copies -----

  /** Each attempted copy is complete exactly if the disk it is made on preserves the file. */
  ghost predicate CopiesTell(events: seq<Event>, a: Answers) {
    forall k | 0 <= k < |events| && events[k].Copied? ::
      events[k].complete <==> Preserves(if events[k].place == TrashDir then a.trashDisk else a.stagingDisk)
  }

  lemma CopiesThen(s: Stage, rest: seq<Event>, a: Answers)
    requires CopiesTell(s.events, a) && CopiesTell(rest, a)
    ensures CopiesTell(Then(s, rest), a)
  {
  }

  lemma CallHasNoCopy(cfg: Config, step: Step, call: Call, reply: Reply, detail: string, failure: string, a: Answers)
    ensures CopiesTell(CallStage(cfg, step, call, reply, detail, failure).events, a)
  {
  }

  /** No run takes a failed copy for a complete one, or a complete one for failed. */
  lemma CopiesAreTold(x: Attempt, log: seq<Entry>)
    ensures CopiesTell(Planned(x, log), x.answers)
  {
    if WasInterrupted(log) {
      GuardIsQuiet(x.cfg);
    } else {
      match x.req
      case Replace => ReplaceCopies(x.cfg, x.file, x.answers, TextsFor(x.cfg, x.file, [], x.answers));
      case Remap(targets) =>
        var resolved := Resolved(targets, x.answers.episodes);
        RemapCopies(x.cfg, targets, resolved, StagedName(x.file, resolved), x.answers, TextsFor(x.cfg, x.file, resolved, x.answers));
    }
  }

  lemma ReplaceCopies(cfg: Config, file: File, a: Answers, t: Texts)
    ensures CopiesTell(ReplaceEvents(cfg, file, a, t), a)
  {
    var search := Then(SearchStage(cfg, a, t), [Release(Remediated)]);
    var delete := Then(ReplaceDeleteStage(cfg, a, t), search);
    CallHasNoCopy(cfg, EpisodeSearch, Search, a.search, t.searched, "", a);
    CopiesThen(SearchStage(cfg, a, t), [Release(Remediated)], a);
    CallHasNoCopy(cfg, DeleteEpisodeFile, DeleteFile, a.delete, t.removed, "", a);
    CopiesThen(ReplaceDeleteStage(cfg, a, t), search, a);
    PreserveIff(a.trashDisk);
    CopiesThen(TrashStage(cfg, a, t), delete, a);
    CallHasNoCopy(cfg, MarkHistoryFailed, MarkFailed, a.mark, t.marked, "", a);
    CopiesThen(MarkStage(cfg, file, a, t), Then(TrashStage(cfg, a, t), delete), a);
  }

  lemma HardlinkTells(cfg: Config, a: Answers, t: Texts)
    ensures CopiesTell(HardlinkStage(cfg, a, t).events, a)
  {
    PreserveIff(a.stagingDisk);
  }

  lemma TargetHasNoCopy(cfg: Config, targets: set<nat>, resolved: seq<Episode>, a: Answers)
    ensures CopiesTell(TargetStage(cfg, targets, resolved).events, a)
  {
  }

  lemma RemapCopies(cfg: Config, targets: set<nat>, resolved: seq<Episode>, name: string, a: Answers, t: Texts)
    ensures CopiesTell(RemapEvents(cfg, targets, resolved, name, a, t), a)
  {
    var tail := RemapTail(cfg, name, a, t);
    TailCopies(cfg, name, a, t);
    CallHasNoCopy(cfg, DeleteEpisodeFile, DeleteFile, a.delete, t.released, t.stagingFailure, a);
    CopiesThen(RemapDeleteStage(cfg, a, t), tail, a);
    HardlinkTells(cfg, a, t);
    CopiesThen(HardlinkStage(cfg, a, t), Then(RemapDeleteStage(cfg, a, t), tail), a);
    TargetHasNoCopy(cfg, targets, resolved, a);
    CopiesThen(TargetStage(cfg, targets, resolved), Then(HardlinkStage(cfg, a, t), Then(RemapDeleteStage(cfg, a, t), tail)), a);
  }

  lemma TailCopies(cfg: Config, name: string, a: Answers, t: Texts)
    ensures CopiesTell(RemapTail(cfg, name, a, t), a)
  {
    CallHasNoCopy(cfg, ExecuteManualImport, Import, a.imported, t.imported, t.stagingFailure, a);
    CopiesThen(ImportStage(cfg, a, t), [Release(Remediated)], a);
    CopiesThen(CandidatesStage(cfg, name, a, t), Then(ImportStage(cfg, a, t), [Release(Remediated)]), a);
  }

  // ----- calls -----

  function StepOf(call: Call): Step {
    match call
    case MarkFailed => MarkHistoryFailed
    case DeleteFile => DeleteEpisodeFile
    case Search => EpisodeSearch
    case Import => ExecuteManualImport
  }

  predicate NamedAt(events: seq<Event>, k: nat) {
    k < |events| && events[k].Mutate? ==>
      && k + 1 < |events| && events[k + 1].Log?
      && events[k + 1].entry.step == StepOf(events[k].call) && events[k + 1].entry.ok == events[k].accepted
  }

  ghost predicate Named(events: seq<Event>) {
    forall k: nat :: NamedAt(events, k)
  }

  lemma NamedThen(s: Stage, rest: seq<Event>)
    requires Named(s.events) && Named(rest)
    ensures Named(Then(s, rest))
  {
    var events := Then(s, rest);
    forall k: nat ensures NamedAt(events, k) {
      if k < |s.events| {
        assert NamedAt(s.events, k);
      } else if k < |events| {
        assert NamedAt(rest, k - |s.events|);
      }
    }
  }

  lemma CallIsNamed(cfg: Config, call: Call, reply: Reply, detail: string, failure: string)
    ensures Named(CallStage(cfg, StepOf(call), call, reply, detail, failure).events)
  {
  }

  lemma ReplaceIsNamed(cfg: Config, file: File, a: Answers, t: Texts)
    ensures Named(ReplaceEvents(cfg, file, a, t))
  {
    var search := Then(SearchStage(cfg, a, t), [Release(Remediated)]);
    var delete := Then(ReplaceDeleteStage(cfg, a, t), search);
    CallIsNamed(cfg, Search, a.search, t.searched, "");
    NamedThen(SearchStage(cfg, a, t), [Release(Remediated)]);
    CallIsNamed(cfg, DeleteFile, a.delete, t.removed, "");
    NamedThen(ReplaceDeleteStage(cfg, a, t), search);
    NamedThen(TrashStage(cfg, a, t), delete);
    CallIsNamed(cfg, MarkFailed, a.mark, t.marked, "");
    NamedThen(MarkStage(cfg, file, a, t), Then(TrashStage(cfg, a, t), delete));
  }

  lemma RemapIsNamed(cfg: Config, targets: set<nat>, resolved: seq<Episode>, name: string, a: Answers, t: Texts)
    ensures Named(RemapEvents(cfg, targets, resolved, name, a, t))
  {
    var tail := RemapTail(cfg, name, a, t);
    CallIsNamed(cfg, Import, a.imported, t.imported, t.stagingFailure);
    NamedThen(ImportStage(cfg, a, t), [Release(Remediated)]);
    NamedThen(CandidatesStage(cfg, name, a, t), Then(ImportStage(cfg, a, t), [Release(Remediated)]));
    CallIsNamed(cfg, DeleteFile, a.delete, t.released, t.stagingFailure);
    NamedThen(RemapDeleteStage(cfg, a, t), tail);
    NamedThen(HardlinkStage(cfg, a, t), Then(RemapDeleteStage(cfg, a, t), tail));
    NamedThen(TargetStage(cfg, targets, resolved), Then(HardlinkStage(cfg, a, t), Then(RemapDeleteStage(cfg, a, t), tail)));
  }

  /** Every call that is sent is logged next, under its own step and with what came of it. */
  lemma CallsAreLogged(x: Attempt, log: seq<Entry>)
    ensures Named(Planned(x, log))
  {
    if !WasInterrupted(log) {
      match x.req
      case Replace => ReplaceIsNamed(x.cfg, x.file, x.answers, TextsFor(x.cfg, x.file, [], x.answers));
      case Remap(targets) =>
        var resolved := Resolved(targets, x.answers.episodes);
        RemapIsNamed(x.cfg, targets, resolved, StagedName(x.file, resolved), x.answers, TextsFor(x.cfg, x.file, resolved, x.answers));
    }
  }

  // ----- what the guard sees -----

  /** `part in s`. */
  lemma {:induction false} ContainsIff(s: string, part: string)
    requires part != ""
    ensures Contains(s, part) <==> exists i: nat :: PartAt(s, part, i)
  {
    if part <= s {
      assert PartAt(s, part, 0);
    }
    if |part| <= |s| {
      ContainsIff(s[1..], part);
      if i: nat :| PartAt(s[1..], part, i) {
        assert s[1..][i..i + |part|] == s[i + 1..i + 1 + |part|];
        assert PartAt(s, part, i + 1);
      }
      if i: nat :| PartAt(s, part, i) {
        if i > 0 {
          assert s[1..][i - 1..i - 1 + |part|] == s[i..i + |part|];
          assert PartAt(s[1..], part, i - 1);
        }
      }
    }
  }

  predicate PartAt(s: string, part: string, i: nat) {
    i + |part| <= |s| && s[i..i + |part|] == part
  }

  /** Which entries trip the guard: successful ones of a real run, unless they are refusals, guard entries or the note
      that nothing could be blocklisted. */
  lemma GuardSeesIff(e: Entry)
    ensures IsMutatingEntry(e) <==>
            && e.ok && !(DRY_PREFIX <= e.detail)
            && e.step != InterruptionGuard && e.step != EpisodeResolution && e.step != OccupiedCheck
            && (e.step == MarkHistoryFailed ==> forall i: nat :: !PartAt(e.detail, NO_HISTORY, i))
  {
    ContainsIff(e.detail, NO_HISTORY);
  }
}
