/** The media: a copy exists before Sonarr deletes, one always survives, dry runs touch nothing. */
module RemediationCopies {
  import opened Options
  import opened Remediation
  import opened RemediationSafety

  // ----- copy before delete -----

  datatype Evidence = CompleteCopy | CommittedRow

  predicate Shows(e: Event, evidence: Evidence) {
    match evidence
    case CompleteCopy => e.Copied? && e.complete
    case CommittedRow => e.Log? && e.trashRow
  }

  predicate IsDelete(e: Event) {
    e.Mutate? && e.call == DeleteFile
  }

  /** Every delete sent to Sonarr comes after the evidence: in the run and in each of its prefixes. */
  ghost predicate SavedFirst(events: seq<Event>, evidence: Evidence) {
    forall k | 0 <= k < |events| && IsDelete(events[k]) :: exists j | 0 <= j < k :: Shows(events[j], evidence)
  }

  ghost predicate NoDelete(events: seq<Event>) {
    forall k | 0 <= k < |events| :: !IsDelete(events[k])
  }

  lemma SavedByStage(s: Stage, rest: seq<Event>, evidence: Evidence)
    requires NoDelete(s.events)
    requires s.proceed ==> exists j | 0 <= j < |s.events| :: Shows(s.events[j], evidence)
    ensures SavedFirst(Then(s, rest), evidence)
  {
    if s.proceed {
      var j :| 0 <= j < |s.events| && Shows(s.events[j], evidence);
      assert Shows(Then(s, rest)[j], evidence);
    }
  }

  lemma SavedAfterStage(s: Stage, rest: seq<Event>, evidence: Evidence)
    requires NoDelete(s.events) && SavedFirst(rest, evidence)
    ensures SavedFirst(Then(s, rest), evidence)
  {
    var events := Then(s, rest);
    forall k | 0 <= k < |events| && IsDelete(events[k])
      ensures exists j | 0 <= j < k :: Shows(events[j], evidence)
    {
      assert IsDelete(rest[k - |s.events|]);
      var j :| 0 <= j < k - |s.events| && Shows(rest[j], evidence);
      assert Shows(events[j + |s.events|], evidence);
    }
  }

  lemma NoDeleteThen(s: Stage, rest: seq<Event>)
    requires NoDelete(s.events) && NoDelete(rest)
    ensures NoDelete(Then(s, rest))
  {
  }

  predicate RemapIsSafe(cfg: Config) {
    cfg.clientDry || !cfg.dry
  }

  predicate ReplaceIsSafe(cfg: Config) {
    cfg.clientDry || (cfg.trash && !cfg.dry)
  }

  lemma RemapSaves(cfg: Config, targets: set<nat>, resolved: seq<Episode>, name: string, a: Answers, t: Texts)
    requires RemapIsSafe(cfg)
    ensures SavedFirst(RemapEvents(cfg, targets, resolved, name, a, t), CompleteCopy)
  {
    var hardlink, delete := HardlinkStage(cfg, a, t), RemapDeleteStage(cfg, a, t);
    var tail := RemapTail(cfg, name, a, t);
    TailHasNoDelete(cfg, name, a, t);
    HardlinkCopies(cfg, a, t);
    if cfg.dry {
      NoDeleteThen(delete, tail);
      NoDeleteThen(hardlink, Then(delete, tail));
    } else {
      SavedByStage(hardlink, Then(delete, tail), CompleteCopy);
    }
    SavedAfterStage(TargetStage(cfg, targets, resolved), Then(hardlink, Then(delete, tail)), CompleteCopy);
  }

  lemma HardlinkCopies(cfg: Config, a: Answers, t: Texts)
    ensures NoDelete(HardlinkStage(cfg, a, t).events)
    ensures !cfg.dry && HardlinkStage(cfg, a, t).proceed ==> Shows(HardlinkStage(cfg, a, t).events[0], CompleteCopy)
  {
  }

  lemma TailHasNoDelete(cfg: Config, name: string, a: Answers, t: Texts)
    ensures NoDelete(RemapTail(cfg, name, a, t))
  {
    if !cfg.dry {
      NoDeleteThen(ImportStage(cfg, a, t), [Release(Remediated)]);
      NoDeleteThen(CandidatesStage(cfg, name, a, t), Then(ImportStage(cfg, a, t), [Release(Remediated)]));
    }
  }

  lemma ReplaceSaves(cfg: Config, file: File, a: Answers, t: Texts, evidence: Evidence)
    requires ReplaceIsSafe(cfg)
    ensures SavedFirst(ReplaceEvents(cfg, file, a, t), evidence)
  {
    var trash, delete := TrashStage(cfg, a, t), ReplaceDeleteStage(cfg, a, t);
    var search := Then(SearchStage(cfg, a, t), [Release(Remediated)]);
    TrashCopies(cfg, a, t);
    if cfg.clientDry {
      NoDeleteThen(delete, search);
      NoDeleteThen(trash, Then(delete, search));
    } else {
      assert trash.proceed ==> Shows(trash.events[if evidence.CompleteCopy? then 0 else 1], evidence);
      SavedByStage(trash, Then(delete, search), evidence);
    }
    SavedAfterStage(MarkStage(cfg, file, a, t), Then(trash, Then(delete, search)), evidence);
  }

  lemma TrashCopies(cfg: Config, a: Answers, t: Texts)
    ensures NoDelete(TrashStage(cfg, a, t).events)
    ensures !cfg.dry && cfg.trash && TrashStage(cfg, a, t).proceed ==>
              && Shows(TrashStage(cfg, a, t).events[0], CompleteCopy)
              && Shows(TrashStage(cfg, a, t).events[1], CommittedRow)
  {
  }

  lemma GuardSaves(cfg: Config, evidence: Evidence)
    ensures SavedFirst(GuardEvents(cfg), evidence)
  {
    GuardIsQuiet(cfg);
  }

  // ----- a copy survives every series of attempts -----

  /** Where a complete copy of the file's data is. */
  datatype Media = Media(library: bool, staging: bool, target: bool, trash: bool)

  predicate Live(m: Media) {
    m.library || m.staging || m.target || m.trash
  }

  /** A copy is complete only if there was something to copy; Sonarr moves the staged file whole. */
  function Observe(m: Media, e: Event): Media {
    match e
    case Copied(Staging, complete) => m.(staging := m.staging || (complete && m.library))
    case Copied(TrashDir, complete) => m.(trash := m.trash || (complete && m.library))
    case Mutate(DeleteFile, _, took) => m.(library := m.library && !took)
    case Mutate(Import, _, took) =>
      if took && m.staging then m.(staging := false, target := true) else m
    case _ => m
  }

  function ObserveAll(m: Media, events: seq<Event>): Media {
    if events == [] then m
    else Observe(ObserveAll(m, events[..|events| - 1]), events[|events| - 1])
  }

  function MediaAfter(m: Media, log: seq<Entry>, xs: seq<Attempt>): Media {
    if xs == [] then m
    else ObserveAll(MediaAfter(m, log, xs[..|xs| - 1]), Happened(xs[|xs| - 1], LogAfter(log, xs[..|xs| - 1])))
  }

  predicate IsSafe(x: Attempt) {
    match x.req
    case Replace => ReplaceIsSafe(x.cfg)
    case Remap(_) => RemapIsSafe(x.cfg)
  }

  lemma PlannedSaves(x: Attempt, log: seq<Entry>)
    requires IsSafe(x)
    ensures SavedFirst(Planned(x, log), CompleteCopy)
    ensures x.req.Replace? ==> SavedFirst(Planned(x, log), CommittedRow)
  {
    GuardSaves(x.cfg, CompleteCopy);
    GuardSaves(x.cfg, CommittedRow);
    match x.req
    case Replace =>
      var t := TextsFor(x.cfg, x.file, [], x.answers);
      ReplaceSaves(x.cfg, x.file, x.answers, t, CompleteCopy);
      ReplaceSaves(x.cfg, x.file, x.answers, t, CommittedRow);
    case Remap(targets) =>
      var resolved := Resolved(targets, x.answers.episodes);
      RemapSaves(x.cfg, targets, resolved, StagedName(x.file, resolved), x.answers,
                 TextsFor(x.cfg, x.file, resolved, x.answers));
  }

  lemma {:induction false} SavedFirstKeepsLive(m: Media, events: seq<Event>)
    requires Live(m) && SavedFirst(events, CompleteCopy)
    ensures Live(ObserveAll(m, events))
    ensures (exists j | 0 <= j < |events| :: Shows(events[j], CompleteCopy)) ==>
              var m' := ObserveAll(m, events); m'.staging || m'.target || m'.trash
    decreases |events|
  {
    if events != [] {
      var before, last := events[..|events| - 1], events[|events| - 1];
      assert events == before + [last];
      SavedFirstKeepsLive(m, before);
      if IsDelete(last) {
        var j :| 0 <= j < |events| - 1 && Shows(events[j], CompleteCopy);
        assert Shows(before[j], CompleteCopy);
      }
      ObserveKeepsLive(ObserveAll(m, before), last);
    }
  }

  /** Only the delete can take the last copy away. */
  lemma ObserveKeepsLive(m: Media, e: Event)
    requires Live(m) && (IsDelete(e) ==> m.staging || m.target || m.trash)
    ensures Live(Observe(m, e))
    ensures m.staging || m.target || m.trash || (Shows(e, CompleteCopy) && m.library) ==>
              var m' := Observe(m, e); m'.staging || m'.target || m'.trash
  {
  }

  /** Over any series of remaps and trash-backed replaces of one file, real or dry, each failing or
      crashing anywhere, some complete copy of the data exists in every reachable state. */
  lemma {:induction false} SomeCopySurvives(m: Media, log: seq<Entry>, xs: seq<Attempt>)
    requires Live(m) && forall x | x in xs :: IsSafe(x)
    ensures Live(MediaAfter(m, log, xs))
    decreases |xs|
  {
    if xs != [] {
      var x, before := xs[|xs| - 1], LogAfter(log, xs[..|xs| - 1]);
      SomeCopySurvives(m, log, xs[..|xs| - 1]);
      PlannedSaves(x, before);
      PrefixSaves(Planned(x, before), Happened(x, before));
      SavedFirstKeepsLive(MediaAfter(m, log, xs[..|xs| - 1]), Happened(x, before));
    }
  }

  lemma PrefixSaves(events: seq<Event>, prefix: seq<Event>)
    requires prefix <= events && SavedFirst(events, CompleteCopy)
    ensures SavedFirst(prefix, CompleteCopy)
  {
    forall k | 0 <= k < |prefix| && IsDelete(prefix[k])
      ensures exists j | 0 <= j < k :: Shows(prefix[j], CompleteCopy)
    {
      assert IsDelete(events[k]);
      var j :| 0 <= j < k && Shows(events[j], CompleteCopy);
      assert Shows(prefix[j], CompleteCopy);
    }
  }

  // ----- the safe configurations are exactly these -----

  /** A file with no download history and one free target episode, on a world where all works. */
  function Sample(req: Request, cfg: Config, crash: nat): Attempt {
    var disk := Disk(None, Linked, None);
    Attempt(req, cfg, File(None, 7, 1, [1], ".mkv"),
            Answers(Accepted, Accepted, Accepted, Accepted, disk, disk, [Episode(1, 1, 1, false)],
                    Listed(["S01E01.mkv"]), "/trash/x", "2030", "/staging"),
            crash)
  }

  lemma UnsavedRemap(cfg: Config)
    requires !RemapIsSafe(cfg)
    ensures !SavedFirst(Planned(Sample(Remap({1}), cfg, 9), []), CompleteCopy)
  {
    var x := Sample(Remap({1}), cfg, 9);
    var resolved := Resolved({1}, x.answers.episodes);
    SampleResolves(cfg);
    UnsavedRemapEvents(cfg, {1}, resolved, StagedName(x.file, resolved), x.answers, TextsFor(cfg, x.file, resolved, x.answers));
  }

  lemma SampleResolves(cfg: Config)
    ensures var resolved := Resolved({1}, [Episode(1, 1, 1, false)]);
            TargetStage(cfg, {1}, resolved) == Stage([], true)
  {
    var resolved := Resolved({1}, [Episode(1, 1, 1, false)]);
    assert resolved == [Episode(1, 1, 1, false)];
    assert resolved[0].id in Ids(resolved);
  }

  lemma UnsavedRemapEvents(cfg: Config, targets: set<nat>, resolved: seq<Episode>, name: string, a: Answers, t: Texts)
    requires !RemapIsSafe(cfg) && TargetStage(cfg, targets, resolved) == Stage([], true)
    ensures !SavedFirst(RemapEvents(cfg, targets, resolved, name, a, t), CompleteCopy)
  {
    var hardlink, delete, tail := HardlinkStage(cfg, a, t), RemapDeleteStage(cfg, a, t), RemapTail(cfg, name, a, t);
    UnsavedTail(hardlink, delete, tail);
    assert Then(Stage([], true), Then(hardlink, Then(delete, tail))) == Then(hardlink, Then(delete, tail));
  }

  lemma UnsavedTail(s: Stage, delete: Stage, rest: seq<Event>)
    requires s.proceed && forall k | 0 <= k < |s.events| :: !Shows(s.events[k], CompleteCopy)
    requires delete.events != [] && IsDelete(delete.events[0])
    ensures !SavedFirst(Then(s, Then(delete, rest)), CompleteCopy)
  {
    var events := Then(s, Then(delete, rest));
    assert IsDelete(events[|s.events|]);
  }

  lemma UnsavedReplace(cfg: Config)
    requires !ReplaceIsSafe(cfg)
    ensures !SavedFirst(Planned(Sample(Replace, cfg, 9), []), CompleteCopy)
  {
    var x := Sample(Replace, cfg, 9);
    UnsavedReplaceEvents(cfg, x.file, x.answers, TextsFor(cfg, x.file, [], x.answers));
  }

  lemma UnsavedReplaceEvents(cfg: Config, file: File, a: Answers, t: Texts)
    requires !ReplaceIsSafe(cfg) && file.historyId.None?
    ensures !SavedFirst(ReplaceEvents(cfg, file, a, t), CompleteCopy)
  {
    var mark, trash := MarkStage(cfg, file, a, t), TrashStage(cfg, a, t);
    var delete, search := ReplaceDeleteStage(cfg, a, t), Then(SearchStage(cfg, a, t), [Release(Remediated)]);
    assert mark.proceed && forall k | 0 <= k < |mark.events| :: !Shows(mark.events[k], CompleteCopy);
    assert trash.proceed && forall k | 0 <= k < |trash.events| :: !Shows(trash.events[k], CompleteCopy);
    UnsavedTwo(mark, trash, delete, search);
  }

  lemma UnsavedTwo(s1: Stage, s2: Stage, delete: Stage, rest: seq<Event>)
    requires s1.proceed && forall k | 0 <= k < |s1.events| :: !Shows(s1.events[k], CompleteCopy)
    requires s2.proceed && forall k | 0 <= k < |s2.events| :: !Shows(s2.events[k], CompleteCopy)
    requires delete.events != [] && IsDelete(delete.events[0])
    ensures !SavedFirst(Then(s1, Then(s2, Then(delete, rest))), CompleteCopy)
  {
    var both := Stage(s1.events + s2.events, true);
    UnsavedTail(both, delete, rest);
    assert Then(s1, Then(s2, Then(delete, rest))) == Then(both, Then(delete, rest));
  }

  /** `remap` deletes only what it has copied, whatever happens, if and only if the Remediator is not
      in dry-run mode with a client that is not. */
  lemma RemapSavesIff(cfg: Config)
    ensures RemapIsSafe(cfg) <==>
            forall x: Attempt, log | x.req.Remap? && x.cfg == cfg :: SavedFirst(Planned(x, log), CompleteCopy)
  {
    if RemapIsSafe(cfg) {
      forall x: Attempt, log | x.req.Remap? && x.cfg == cfg ensures SavedFirst(Planned(x, log), CompleteCopy) {
        PlannedSaves(x, log);
      }
    } else {
      UnsavedRemap(cfg);
      assert Sample(Remap({1}), cfg, 9).cfg == cfg;
    }
  }

  /** `replace` deletes only what it has copied to the trash, with the trash row committed, if and only
      if trash is enabled and the Remediator is not in dry-run mode, or the client sends nothing. */
  lemma ReplaceSavesIff(cfg: Config)
    ensures ReplaceIsSafe(cfg) <==>
            forall x: Attempt, log | x.req.Replace? && x.cfg == cfg ::
              SavedFirst(Planned(x, log), CompleteCopy) && SavedFirst(Planned(x, log), CommittedRow)
  {
    if ReplaceIsSafe(cfg) {
      forall x: Attempt, log | x.req.Replace? && x.cfg == cfg
        ensures SavedFirst(Planned(x, log), CompleteCopy) && SavedFirst(Planned(x, log), CommittedRow)
      {
        PlannedSaves(x, log);
      }
    } else {
      UnsavedReplace(cfg);
      assert Sample(Replace, cfg, 9).cfg == cfg;
    }
  }
}
