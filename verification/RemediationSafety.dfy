/** What `replace` and `remap` guarantee, over every run, every crash and every retry. */
module RemediationSafety {
  import opened Options
  import opened Decimal
  import opened Remediation

  // ----- the classification of log entries -----

  lemma {:induction false} NotContained(s: string, part: string)
    requires part != "" && part[0] !in s
    ensures !Contains(s, part)
  {
    if |part| <= |s| {
      assert s[0] in s;
      NotContained(s[1..], part);
    }
  }

  /** No detail a run can log begins like a dry-run entry. */
  ghost predicate PlainTexts(t: Texts) {
    && !StartsWith(t.marked, DRY_PREFIX) && !Contains(t.marked, NO_HISTORY)
    && !StartsWith(t.trashed, DRY_PREFIX)
    && !StartsWith(t.removed, DRY_PREFIX)
    && !StartsWith(t.searched, DRY_PREFIX)
    && !StartsWith(t.staged, DRY_PREFIX)
    && !StartsWith(t.released, DRY_PREFIX)
    && !StartsWith(t.matched, DRY_PREFIX)
    && !StartsWith(t.imported, DRY_PREFIX)
  }

  /** The entry of a real blocklist call is never mistaken for the note that none was possible. */
  lemma HistoryIdIsNotTheNote(digits: string)
    requires AllDigits(digits)
    ensures !Contains("history_id=" + digits, NO_HISTORY)
  {
    var s := "history_id=" + digits;
    forall i | 0 <= i < |s| ensures s[i] != 'n' {
      if i >= 11 {
        assert s[i] == digits[i - 11];
      }
    }
    NotContained(s, NO_HISTORY);
  }

  lemma OtherInitial(text: string, rest: string)
    requires text != "" && text[0] != 'D'
    ensures !StartsWith(text + rest, DRY_PREFIX)
  {
    assert (text + rest)[0] != DRY_PREFIX[0];
  }

  lemma TextsArePlain(cfg: Config, file: File, resolved: seq<Episode>, a: Answers)
    ensures PlainTexts(TextsFor(cfg, file, resolved, a))
  {
    var digits := match file.historyId case Some(id) => Show(id) case None => "";
    var name, id := StagedName(file, resolved), Show(file.episodeFileId);
    var retained := if cfg.trash then "; copy retained in trash until " + a.expiresAt else "";
    HistoryIdIsNotTheNote(digits);
    OtherInitial("history_id=", digits);
    OtherInitial("copied file to trash: ", a.trashPath + (" (expires " + (a.expiresAt + ")")));
    OtherInitial("removed file via Sonarr ", "(episode_file_id=" + id + retained + ")");
    OtherInitial("episode_ids=", ShowIds(file.episodeIds));
    OtherInitial("preserved file data in staging: ", a.stagingDir + "/" + name);
    OtherInitial("released the mislabelled file ",
                 "record from Sonarr (episode_file_id=" + id + "; file data preserved in staging)");
    OtherInitial("matched candidate path=", name);
    OtherInitial("imported staged file as ", StagedLabel(resolved));
  }

  lemma NoteIsNotMutating(cfg: Config)
    ensures !IsMutatingEntry(LogEvent(cfg, MarkHistoryFailed, true, NO_HISTORY_NOTE).entry)
  {
    if !cfg.dry {
      assert NO_HISTORY <= NO_HISTORY_NOTE;
    }
  }

  // ----- order of the steps -----

  function Rank(step: Step): nat {
    match step
    case InterruptionGuard => 1
    case EpisodeResolution => 1
    case OccupiedCheck => 1
    case MarkHistoryFailed => 1
    case Trash => 2
    case Hardlink => 2
    case DeleteEpisodeFile => 3
    case ManualImportCandidates => 4
    case ExecuteManualImport => 5
    case ManualImport => 5
    case EpisodeSearch => 5
  }

  /** The logged steps have strictly ascending ranks in (lo, hi]. */
  ghost predicate Ascending(events: seq<Event>, lo: nat, hi: nat) {
    && lo <= hi
    && (forall i | 0 <= i < |events| && events[i].Log? :: lo < Rank(events[i].entry.step) <= hi)
    && (forall i, j | 0 <= i < j < |events| && events[i].Log? && events[j].Log? ::
          Rank(events[i].entry.step) < Rank(events[j].entry.step))
  }

  lemma {:induction false} AscendingLogged(events: seq<Event>, lo: nat, hi: nat)
    requires Ascending(events, lo, hi)
    ensures forall i | 0 <= i < |Logged(events)| :: lo < Rank(Logged(events)[i].step)
    ensures forall i, j | 0 <= i < j < |Logged(events)| :: Logged(events)[i].step != Logged(events)[j].step
  {
    if events != [] {
      AscendingLogged(events[1..], if events[0].Log? then Rank(events[0].entry.step) else lo, hi);
    }
  }

  // ----- no gap between an accepted call and its entry -----

  predicate IsAccepted(e: Event) {
    e.Mutate? && e.accepted
  }

  predicate IsMutatingLog(e: Event) {
    e.Log? && IsMutatingEntry(e.entry)
  }

  /** A call Sonarr accepted is followed at once by its entry, and that entry trips the guard. */
  ghost predicate Gapless(events: seq<Event>) {
    forall k | 0 <= k < |events| && IsAccepted(events[k]) :: k + 1 < |events| && IsMutatingLog(events[k + 1])
  }

  ghost predicate Regular(cfg: Config, events: seq<Event>, lo: nat, hi: nat) {
    Ascending(events, lo, hi) && (Agree(cfg) ==> Gapless(events))
  }

  lemma RegularThen(cfg: Config, s: Stage, rest: seq<Event>, lo: nat, mid: nat, hi: nat)
    requires Regular(cfg, s.events, lo, mid) && Regular(cfg, rest, mid, hi)
    ensures Regular(cfg, Then(s, rest), lo, hi)
  {
    var events := Then(s, rest);
    forall k | 0 <= k < |events| && IsAccepted(events[k]) && Agree(cfg)
      ensures k + 1 < |events| && IsMutatingLog(events[k + 1])
    {
      if k < |s.events| {
        assert IsAccepted(s.events[k]);
      } else {
        assert IsAccepted(rest[k - |s.events|]);
      }
    }
  }

  lemma CallIsRegular(cfg: Config, step: Step, call: Call, reply: Reply, detail: string, failure: string, lo: nat)
    requires lo < Rank(step) && step in MUTATING_STEPS && !StartsWith(detail, DRY_PREFIX)
    requires step == MarkHistoryFailed ==> !Contains(detail, NO_HISTORY)
    ensures Regular(cfg, CallStage(cfg, step, call, reply, detail, failure).events, lo, Rank(step))
  {
    if cfg.clientDry {
      OneLogIsRegular(cfg, [], LogEvent(cfg, step, true, detail), [], lo);
    } else if reply.Accepted? {
      OneLogIsRegular(cfg, [Mutate(call, true, true)], LogEvent(cfg, step, true, detail), [], lo);
    } else {
      OneLogIsRegular(cfg, [Mutate(call, false, reply.took)], LogEvent(cfg, step, false, reply.message + failure),
                      [Release(Quarantine)], lo);
    }
  }

  /** One log entry, with at most a call before it and a release after it. */
  lemma OneLogIsRegular(cfg: Config, before: seq<Event>, log: Event, after: seq<Event>, lo: nat)
    requires log.Log? && lo < Rank(log.entry.step) && |before| <= 1 && |after| <= 1
    requires forall e | e in before + after :: !e.Log?
    requires forall e | e in after :: !IsAccepted(e)
    requires Agree(cfg) && before != [] && IsAccepted(before[0]) ==> IsMutatingLog(log)
    ensures Regular(cfg, before + [log] + after, lo, Rank(log.entry.step))
  {
    var events := before + [log] + after;
    forall i | 0 <= i < |events| && i != |before| ensures !events[i].Log? {
      assert events[i] in before + after;
    }
  }

  lemma RefuseIsRegular(cfg: Config, step: Step, detail: string, lo: nat)
    requires lo < Rank(step)
    ensures Regular(cfg, Refuse(cfg, step, detail).events, lo, Rank(step))
  {
  }

  /** Three stages and a tail: the shape of both choreographies. */
  lemma ChainIsRegular(cfg: Config, s1: Stage, s2: Stage, s3: Stage, tail: seq<Event>)
    requires Regular(cfg, s1.events, 0, 1) && Regular(cfg, s2.events, 1, 2) && Regular(cfg, s3.events, 2, 3)
    requires Regular(cfg, tail, 3, 5)
    ensures Regular(cfg, Then(s1, Then(s2, Then(s3, tail))), 0, 5)
  {
    RegularThen(cfg, s3, tail, 2, 3, 5);
    RegularThen(cfg, s2, Then(s3, tail), 1, 2, 5);
    RegularThen(cfg, s1, Then(s2, Then(s3, tail)), 0, 1, 5);
  }

  lemma MarkIsRegular(cfg: Config, file: File, a: Answers, t: Texts)
    requires PlainTexts(t)
    ensures Regular(cfg, MarkStage(cfg, file, a, t).events, 0, 1)
  {
    if file.historyId.Some? {
      CallIsRegular(cfg, MarkHistoryFailed, MarkFailed, a.mark, t.marked, "", 0);
    }
  }

  lemma TrashIsRegular(cfg: Config, a: Answers, t: Texts)
    requires PlainTexts(t)
    ensures Regular(cfg, TrashStage(cfg, a, t).events, 1, 2)
  {
  }

  lemma SearchIsRegular(cfg: Config, a: Answers, t: Texts)
    requires PlainTexts(t)
    ensures Regular(cfg, Then(SearchStage(cfg, a, t), [Release(Remediated)]), 3, 5)
  {
    CallIsRegular(cfg, EpisodeSearch, Search, a.search, t.searched, "", 3);
    RegularThen(cfg, SearchStage(cfg, a, t), [Release(Remediated)], 3, 5, 5);
  }

  lemma ReplaceIsRegular(cfg: Config, file: File, a: Answers, t: Texts)
    requires PlainTexts(t)
    ensures Regular(cfg, ReplaceEvents(cfg, file, a, t), 0, 5)
  {
    MarkIsRegular(cfg, file, a, t);
    TrashIsRegular(cfg, a, t);
    CallIsRegular(cfg, DeleteEpisodeFile, DeleteFile, a.delete, t.removed, "", 2);
    SearchIsRegular(cfg, a, t);
    ChainIsRegular(cfg, MarkStage(cfg, file, a, t), TrashStage(cfg, a, t), ReplaceDeleteStage(cfg, a, t),
                   Then(SearchStage(cfg, a, t), [Release(Remediated)]));
  }

  lemma TargetIsRegular(cfg: Config, targets: set<nat>, resolved: seq<Episode>)
    ensures Regular(cfg, TargetStage(cfg, targets, resolved).events, 0, 1)
  {
    RefuseIsRegular(cfg, EpisodeResolution, UNKNOWN_TARGET, 0);
    RefuseIsRegular(cfg, OccupiedCheck, OCCUPIED_TARGET, 0);
  }

  lemma HardlinkIsRegular(cfg: Config, a: Answers, t: Texts)
    requires PlainTexts(t)
    ensures Regular(cfg, HardlinkStage(cfg, a, t).events, 1, 2)
  {
  }

  lemma CandidatesIsRegular(cfg: Config, name: string, a: Answers, t: Texts)
    requires PlainTexts(t)
    ensures Regular(cfg, CandidatesStage(cfg, name, a, t).events, 3, 4)
  {
  }

  lemma RemapTailIsRegular(cfg: Config, name: string, a: Answers, t: Texts)
    requires PlainTexts(t)
    ensures Regular(cfg, RemapTail(cfg, name, a, t), 3, 5)
  {
    if !cfg.dry {
      var listing, imported, done := CandidatesStage(cfg, name, a, t), ImportStage(cfg, a, t), [Release(Remediated)];
      CandidatesIsRegular(cfg, name, a, t);
      CallIsRegular(cfg, ExecuteManualImport, Import, a.imported, t.imported, t.stagingFailure, 4);
      RegularThen(cfg, imported, done, 4, 5, 5);
      RegularThen(cfg, listing, Then(imported, done), 3, 4, 5);
    }
  }

  lemma RemapIsRegular(cfg: Config, targets: set<nat>, resolved: seq<Episode>, name: string, a: Answers, t: Texts)
    requires PlainTexts(t)
    ensures Regular(cfg, RemapEvents(cfg, targets, resolved, name, a, t), 0, 5)
  {
    TargetIsRegular(cfg, targets, resolved);
    HardlinkIsRegular(cfg, a, t);
    CallIsRegular(cfg, DeleteEpisodeFile, DeleteFile, a.delete, t.released, t.stagingFailure, 2);
    RemapTailIsRegular(cfg, name, a, t);
    ChainIsRegular(cfg, TargetStage(cfg, targets, resolved), HardlinkStage(cfg, a, t), RemapDeleteStage(cfg, a, t),
                   RemapTail(cfg, name, a, t));
  }

  lemma RunIsRegular(req: Request, cfg: Config, file: File, a: Answers, log: seq<Entry>)
    ensures Regular(cfg, RunEvents(req, cfg, file, a, log), 0, 5)
  {
    if WasInterrupted(log) {
      RefuseIsRegular(cfg, InterruptionGuard, GUARD_NOTE, 0);
    } else {
      match req
      case Replace =>
        TextsArePlain(cfg, file, [], a);
        ReplaceIsRegular(cfg, file, a, TextsFor(cfg, file, [], a));
      case Remap(targets) =>
        var resolved := Resolved(targets, a.episodes);
        TextsArePlain(cfg, file, resolved, a);
        assert Regular(cfg, [], 0, 5);
        RemapIsRegular(cfg, targets, resolved, StagedName(file, resolved), a, TextsFor(cfg, file, resolved, a));
    }
  }

  // ----- retries on one verdict row -----

  /** One call of `replace` or `remap`, cut short after `crash` events if it had that many. */
  datatype Attempt = Attempt(req: Request, cfg: Config, file: File, answers: Answers, crash: nat)

  function Planned(x: Attempt, log: seq<Entry>): seq<Event> {
    RunEvents(x.req, x.cfg, x.file, x.answers, log)
  }

  function Happened(x: Attempt, log: seq<Entry>): seq<Event> {
    var events := Planned(x, log);
    if x.crash < |events| then events[..x.crash] else events
  }

  /** The row's log after a series of attempts, whoever makes them and however they end. */
  function LogAfter(log: seq<Entry>, xs: seq<Attempt>): seq<Entry> {
    if xs == [] then log
    else LogAfter(log, xs[..|xs| - 1]) + Logged(Happened(xs[|xs| - 1], LogAfter(log, xs[..|xs| - 1])))
  }

  /** What attempt i of the series did. */
  function Nth(log: seq<Entry>, xs: seq<Attempt>, i: nat): seq<Event>
    requires i < |xs|
  {
    Happened(xs[i], LogAfter(log, xs[..i]))
  }

  ghost predicate Mutated(events: seq<Event>) {
    exists k | 0 <= k < |events| :: IsMutatingLog(events[k])
  }

  lemma {:induction false} LoggedHas(events: seq<Event>, k: nat)
    requires k < |events| && events[k].Log?
    ensures events[k].entry in Logged(events)
  {
    if k > 0 {
      LoggedHas(events[1..], k - 1);
    }
  }

  lemma LogExtends(log: seq<Entry>, xs: seq<Attempt>)
    requires xs != []
    ensures LogAfter(log, xs[..|xs| - 1]) <= LogAfter(log, xs)
  {
  }

  lemma {:induction false} LogGrows(log: seq<Entry>, xs: seq<Attempt>, i: nat, j: nat)
    requires i <= j <= |xs|
    ensures LogAfter(log, xs[..i]) <= LogAfter(log, xs[..j])
    decreases j
  {
    if i < j {
      LogGrows(log, xs, i, j - 1);
      assert LogAfter(log, xs[..j - 1]) <= LogAfter(log, xs[..j]) by {
        assert xs[..j][..j - 1] == xs[..j - 1];
        LogExtends(log, xs[..j]);
      }
      PrefixOfPrefix(LogAfter(log, xs[..i]), LogAfter(log, xs[..j - 1]), LogAfter(log, xs[..j]));
    }
  }

  lemma PrefixOfPrefix(a: seq<Entry>, b: seq<Entry>, c: seq<Entry>)
    requires a <= b <= c
    ensures a <= c
  {
  }

  lemma InterruptedMeansGuard(x: Attempt, log: seq<Entry>)
    requires WasInterrupted(log)
    ensures Planned(x, log) == GuardEvents(x.cfg)
    ensures Happened(x, log) <= GuardEvents(x.cfg)
  {
  }

  lemma GuardIsQuiet(cfg: Config)
    ensures GuardEvents(cfg) == [LogEvent(cfg, InterruptionGuard, false, GUARD_NOTE), Release(Quarantine)]
    ensures !Mutated(GuardEvents(cfg)) && forall e | e in GuardEvents(cfg) :: !e.Mutate? && !e.Copied?
    ensures forall e | e in Logged(GuardEvents(cfg)) :: !e.ok
  {
  }

  lemma MutationInterrupts(log: seq<Entry>, xs: seq<Attempt>, i: nat, j: nat)
    requires i < j <= |xs|
    ensures Mutated(Nth(log, xs, i)) ==> WasInterrupted(LogAfter(log, xs[..j]))
  {
    var events := Nth(log, xs, i);
    if k :| 0 <= k < |events| && IsMutatingLog(events[k]) {
      var e := events[k].entry;
      assert e in Logged(events) by {
        LoggedHas(events, k);
      }
      assert e in LogAfter(log, xs[..i + 1]) by {
        assert xs[..i + 1][..i] == xs[..i];
      }
      InLaterLog(log, xs, i + 1, j, e);
    }
  }

  lemma InLaterLog(log: seq<Entry>, xs: seq<Attempt>, i: nat, j: nat, e: Entry)
    requires i <= j <= |xs| && IsMutatingEntry(e)
    ensures e in LogAfter(log, xs[..i]) ==> WasInterrupted(LogAfter(log, xs[..j]))
  {
    LogGrows(log, xs, i, j);
    assert e in LogAfter(log, xs[..i]) ==> e in LogAfter(log, xs[..j]);
  }

  /** Once an attempt has logged a mutating step, the guard stops every later one: no call, no copy,
      one guard entry and a quarantine, or a prefix of that if it crashes too. */
  lemma LaterAttemptsOnlyGuard(log: seq<Entry>, xs: seq<Attempt>, i: nat, j: nat)
    requires i < j < |xs|
    ensures Mutated(Nth(log, xs, i)) ==>
              && Nth(log, xs, j) <= [LogEvent(xs[j].cfg, InterruptionGuard, false, GUARD_NOTE), Release(Quarantine)]
              && !Mutated(Nth(log, xs, j))
              && (xs[j].crash >= 2 ==> |Nth(log, xs, j)| == 2)
  {
    MutationInterrupts(log, xs, i, j);
    if WasInterrupted(LogAfter(log, xs[..j])) {
      InterruptedMeansGuard(xs[j], LogAfter(log, xs[..j]));
      GuardIsQuiet(xs[j].cfg);
    }
  }

  /** All mutating entries of a verdict row come from a single attempt. */
  lemma SingleRunMutation(log: seq<Entry>, xs: seq<Attempt>, i: nat, j: nat)
    requires i < |xs| && j < |xs|
    ensures Mutated(Nth(log, xs, i)) && Mutated(Nth(log, xs, j)) ==> i == j
  {
    if i < j {
      LaterAttemptsOnlyGuard(log, xs, i, j);
    } else if j < i {
      LaterAttemptsOnlyGuard(log, xs, j, i);
    }
  }

  ghost predicate StepsOnce(log: seq<Entry>) {
    forall p, q | 0 <= p < q < |log| && IsMutatingEntry(log[p]) && IsMutatingEntry(log[q]) :: log[p].step != log[q].step
  }

  /** On a new verdict row, each mutating step is logged as really done at most once, ever. */
  lemma {:induction false} EachStepOnce(xs: seq<Attempt>)
    ensures StepsOnce(LogAfter([], xs))
    decreases |xs|
  {
    if xs != [] {
      EachStepOnce(xs[..|xs| - 1]);
      AttemptKeepsStepsOnce(xs[|xs| - 1], LogAfter([], xs[..|xs| - 1]));
    }
  }

  lemma AttemptKeepsStepsOnce(x: Attempt, log: seq<Entry>)
    requires StepsOnce(log)
    ensures StepsOnce(log + Logged(Happened(x, log)))
  {
    var events := Happened(x, log);
    assert Ascending(events, 0, 5) by {
      RunIsRegular(x.req, x.cfg, x.file, x.answers, log);
    }
    AscendingLogged(events, 0, 5);
    if WasInterrupted(log) {
      GuardLogsNoSuccess(x, log);
    }
    ExtendStepsOnce(log, Logged(events));
  }

  lemma GuardLogsNoSuccess(x: Attempt, log: seq<Entry>)
    requires WasInterrupted(log)
    ensures forall e | e in Logged(Happened(x, log)) :: !e.ok
  {
    InterruptedMeansGuard(x, log);
    GuardIsQuiet(x.cfg);
    LoggedPrefix(GuardEvents(x.cfg), |Happened(x, log)|);
  }

  lemma ExtendStepsOnce(log: seq<Entry>, more: seq<Entry>)
    requires StepsOnce(log)
    requires forall p, q | 0 <= p < q < |more| :: more[p].step != more[q].step
    requires WasInterrupted(log) ==> forall e | e in more :: !e.ok
    ensures StepsOnce(log + more)
  {
  }

  lemma {:induction false} LoggedPrefix(events: seq<Event>, k: nat)
    requires k <= |events|
    ensures forall e | e in Logged(events[..k]) :: e in Logged(events)
  {
    if k > 0 {
      assert events[..k][1..] == events[1..][..k - 1];
      LoggedPrefix(events[1..], k - 1);
    }
  }

  lemma UnloggedCallIsLast(planned: seq<Event>, events: seq<Event>, k: nat)
    requires Gapless(planned) && events <= planned
    requires forall m | 0 <= m < |events| :: !IsMutatingLog(planned[m])
    requires k < |events| && IsAccepted(events[k])
    ensures k == |events| - 1 < |planned| - 1 && forall k' | 0 <= k' < k :: !IsAccepted(events[k'])
  {
    forall k' | 0 <= k' <= k && IsAccepted(events[k'])
      ensures k' == |events| - 1 < |planned| - 1
    {
      assert IsMutatingLog(planned[k' + 1]);
    }
  }

  lemma UnloggedMeansCrashed(x: Attempt, log: seq<Entry>, k: nat)
    requires Agree(x.cfg)
    ensures !Mutated(Happened(x, log)) && AcceptedAt(Happened(x, log), k) ==>
              k == |Happened(x, log)| - 1 && x.crash == k + 1 && OnlyAccepted(Happened(x, log), k)
  {
    RunIsRegular(x.req, x.cfg, x.file, x.answers, log);
    if !Mutated(Happened(x, log)) && AcceptedAt(Happened(x, log), k) {
      forall m | 0 <= m < |Happened(x, log)| ensures !IsMutatingLog(Planned(x, log)[m]) {
        assert !IsMutatingLog(Happened(x, log)[m]);
      }
      UnloggedCallIsLast(Planned(x, log), Happened(x, log), k);
    }
  }

  predicate AcceptedAt(events: seq<Event>, k: nat) {
    k < |events| && IsAccepted(events[k])
  }

  /** The k-th event is the only accepted call. */
  ghost predicate OnlyAccepted(events: seq<Event>, k: nat) {
    forall k' | 0 <= k' < |events| && IsAccepted(events[k']) :: k' == k
  }

  lemma AcceptedMeansNotInterrupted(x: Attempt, log: seq<Entry>, l: nat)
    ensures AcceptedAt(Happened(x, log), l) ==> !WasInterrupted(log)
  {
    if WasInterrupted(log) {
      InterruptedMeansGuard(x, log);
      GuardIsQuiet(x.cfg);
    }
  }

  /** The guard cannot see a call that Sonarr accepted but that was never logged.  Two attempts both
      get a call accepted only if the earlier one died between that call and its log commit; and then
      that call is all it got accepted. */
  lemma AcceptedTwiceOnlyAcrossACrashGap(log: seq<Entry>, xs: seq<Attempt>, i: nat, j: nat, k: nat, l: nat)
    requires i < j < |xs| && Agree(xs[i].cfg)
    ensures AcceptedAt(Nth(log, xs, i), k) && AcceptedAt(Nth(log, xs, j), l) ==>
              k == |Nth(log, xs, i)| - 1 && xs[i].crash == k + 1 && OnlyAccepted(Nth(log, xs, i), k)
  {
    AcceptedMeansNotInterrupted(xs[j], LogAfter(log, xs[..j]), l);
    MutationInterrupts(log, xs, i, j);
    UnloggedMeansCrashed(xs[i], LogAfter(log, xs[..i]), k);
  }
}
