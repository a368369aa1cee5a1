/** The crash gap: the calls Sonarr has accepted but the interruption guard cannot see. */
module CrashGap {
  import opened Options
  import opened Remediation
  import opened RemediationSafety
  import opened RemediationCopies
  import opened DryRuns

  /** A mutating entry is logged before event k. */
  ghost predicate SeenBefore(events: seq<Event>, k: nat) {
    exists m :: 0 <= m < k && m < |events| && IsMutatingLog(events[m])
  }

  /** The accepted calls with no mutating entry before them are those of the named kinds. */
  ghost predicate MissesOnly(events: seq<Event>, missed: set<Call>) {
    forall k | 0 <= k < |events| && IsAccepted(events[k]) :: !SeenBefore(events, k) <==> events[k].call in missed
  }

  ghost predicate NoneAccepted(events: seq<Event>) {
    forall k | 0 <= k < |events| :: !IsAccepted(events[k])
  }

  ghost predicate NoneMutating(events: seq<Event>) {
    forall k | 0 <= k < |events| :: !IsMutatingLog(events[k])
  }

  lemma SeenLater(before: seq<Event>, rest: seq<Event>, k: nat)
    requires NoneMutating(before) && k <= |rest|
    ensures SeenBefore(before + rest, |before| + k) <==> SeenBefore(rest, k)
  {
    var events := before + rest;
    if m :| 0 <= m < |before| + k && m < |events| && IsMutatingLog(events[m]) {
      assert m >= |before| && IsMutatingLog(rest[m - |before|]);
    }
    if m :| 0 <= m < k && m < |rest| && IsMutatingLog(rest[m]) {
      assert IsMutatingLog(events[|before| + m]);
    }
  }

  lemma MissesAfterQuietStage(s: Stage, rest: seq<Event>, missed: set<Call>)
    requires NoneAccepted(s.events) && NoneMutating(s.events) && MissesOnly(rest, missed)
    ensures MissesOnly(Then(s, rest), missed)
  {
    var events := Then(s, rest);
    forall k | 0 <= k < |events| && IsAccepted(events[k]) ensures !SeenBefore(events, k) <==> events[k].call in missed {
      assert k >= |s.events| && IsAccepted(rest[k - |s.events|]);
      SeenLater(s.events, rest, k - |s.events|);
    }
  }

  lemma MissesNothingAfter(s: Stage, rest: seq<Event>)
    requires NoneAccepted(s.events) && (s.proceed ==> exists m | 0 <= m < |s.events| :: IsMutatingLog(s.events[m]))
    ensures MissesOnly(Then(s, rest), {})
  {
    var events := Then(s, rest);
    if s.proceed {
      var m :| 0 <= m < |s.events| && IsMutatingLog(s.events[m]);
      assert IsMutatingLog(events[m]);
    }
  }

  /** The first mutating call is the one that can be missed: what follows comes after its entry. */
  lemma MissesFirstCall(cfg: Config, step: Step, call: Call, reply: Reply, detail: string, failure: string, rest: seq<Event>)
    requires step in MUTATING_STEPS && !StartsWith(detail, DRY_PREFIX) && !cfg.dry && !cfg.clientDry
    requires step == MarkHistoryFailed ==> !Contains(detail, NO_HISTORY)
    requires forall k | 0 <= k < |rest| && IsAccepted(rest[k]) :: rest[k].call != call
    ensures MissesOnly(Then(CallStage(cfg, step, call, reply, detail, failure), rest), {call})
  {
    var s := CallStage(cfg, step, call, reply, detail, failure);
    var events := Then(s, rest);
    if reply.Accepted? {
      assert s.events == [Mutate(call, true, true), LogEvent(cfg, step, true, detail)];
      assert IsMutatingLog(events[1]);
      forall k | 0 <= k < |events| && IsAccepted(events[k]) ensures !SeenBefore(events, k) <==> events[k].call in {call} {
        if k >= 2 {
          assert events[k] == rest[k - 2];
        }
      }
    } else {
      assert s.events ==
             [Mutate(call, false, reply.took), LogEvent(cfg, step, false, reply.message + failure), Release(Quarantine)];
    }
  }

  lemma OtherCall(cfg: Config, step: Step, call: Call, reply: Reply, detail: string, failure: string)
    ensures forall k | 0 <= k < |CallStage(cfg, step, call, reply, detail, failure).events|
                       && IsAccepted(CallStage(cfg, step, call, reply, detail, failure).events[k]) ::
              CallStage(cfg, step, call, reply, detail, failure).events[k].call == call
  {
  }

  ghost predicate Avoids(events: seq<Event>, calls: set<Call>) {
    forall k | 0 <= k < |events| && IsAccepted(events[k]) :: events[k].call !in calls
  }

  lemma AvoidsThen(s: Stage, rest: seq<Event>, calls: set<Call>)
    requires Avoids(s.events, calls) && Avoids(rest, calls)
    ensures Avoids(Then(s, rest), calls)
  {
  }

  /** After the blocklist call no other one follows; after the delete no other delete. */
  lemma ReplaceTailAvoids(cfg: Config, a: Answers, t: Texts)
    ensures Avoids(Then(SearchStage(cfg, a, t), [Release(Remediated)]), {MarkFailed, DeleteFile})
    ensures Avoids(Then(TrashStage(cfg, a, t), Then(ReplaceDeleteStage(cfg, a, t), Then(SearchStage(cfg, a, t), [Release(Remediated)]))),
                   {MarkFailed})
  {
    var search := Then(SearchStage(cfg, a, t), [Release(Remediated)]);
    OtherCall(cfg, EpisodeSearch, Search, a.search, t.searched, "");
    OtherCall(cfg, DeleteEpisodeFile, DeleteFile, a.delete, t.removed, "");
    AvoidsThen(SearchStage(cfg, a, t), [Release(Remediated)], {MarkFailed, DeleteFile});
    AvoidsThen(ReplaceDeleteStage(cfg, a, t), search, {MarkFailed});
    AvoidsThen(TrashStage(cfg, a, t), Then(ReplaceDeleteStage(cfg, a, t), search), {MarkFailed});
  }

  /** The calls the guard can miss, told from the request, the configuration and the file. */
  function Missable(req: Request, cfg: Config, file: File): set<Call> {
    if req.Remap? then {}
    else if file.historyId.Some? then {MarkFailed}
    else if cfg.trash then {}
    else {DeleteFile}
  }

  lemma ReplaceMisses(cfg: Config, file: File, a: Answers, t: Texts)
    requires !cfg.dry && !cfg.clientDry && PlainTexts(t)
    ensures MissesOnly(ReplaceEvents(cfg, file, a, t), Missable(Replace, cfg, file))
  {
    var search := Then(SearchStage(cfg, a, t), [Release(Remediated)]);
    var delete := Then(ReplaceDeleteStage(cfg, a, t), search);
    var trash := Then(TrashStage(cfg, a, t), delete);
    ReplaceTailAvoids(cfg, a, t);
    if file.historyId.Some? {
      MissesFirstCall(cfg, MarkHistoryFailed, MarkFailed, a.mark, t.marked, "", trash);
    } else {
      if cfg.trash {
        TrashIsSeen(cfg, a, t);
        MissesNothingAfter(TrashStage(cfg, a, t), delete);
      } else {
        MissesFirstCall(cfg, DeleteEpisodeFile, DeleteFile, a.delete, t.removed, "", search);
        assert trash == delete;
      }
      NoteIsNotMutating(cfg);
      MissesAfterQuietStage(MarkStage(cfg, file, a, t), trash, Missable(Replace, cfg, file));
    }
  }

  lemma TrashIsSeen(cfg: Config, a: Answers, t: Texts)
    requires !cfg.dry && cfg.trash && PlainTexts(t)
    ensures NoneAccepted(TrashStage(cfg, a, t).events)
    ensures TrashStage(cfg, a, t).proceed ==> IsMutatingLog(TrashStage(cfg, a, t).events[1])
  {
  }

  lemma HardlinkIsSeen(cfg: Config, a: Answers, t: Texts)
    requires !cfg.dry && PlainTexts(t)
    ensures NoneAccepted(HardlinkStage(cfg, a, t).events)
    ensures HardlinkStage(cfg, a, t).proceed ==> IsMutatingLog(HardlinkStage(cfg, a, t).events[1])
  {
  }

  lemma TargetIsQuiet(cfg: Config, targets: set<nat>, resolved: seq<Episode>)
    ensures NoneAccepted(TargetStage(cfg, targets, resolved).events) && NoneMutating(TargetStage(cfg, targets, resolved).events)
  {
  }

  lemma RemapMisses(cfg: Config, targets: set<nat>, resolved: seq<Episode>, name: string, a: Answers, t: Texts)
    requires !cfg.dry && PlainTexts(t)
    ensures MissesOnly(RemapEvents(cfg, targets, resolved, name, a, t), {})
  {
    var delete := Then(RemapDeleteStage(cfg, a, t), RemapTail(cfg, name, a, t));
    assert MissesOnly(Then(HardlinkStage(cfg, a, t), delete), {}) by {
      HardlinkIsSeen(cfg, a, t);
      MissesNothingAfter(HardlinkStage(cfg, a, t), delete);
    }
    TargetIsQuiet(cfg, targets, resolved);
    MissesAfterQuietStage(TargetStage(cfg, targets, resolved), Then(HardlinkStage(cfg, a, t), delete), {});
  }

  lemma PlanMisses(x: Attempt, log: seq<Entry>)
    requires Agree(x.cfg) && !WasInterrupted(log)
    ensures MissesOnly(Planned(x, log), Missable(x.req, x.cfg, x.file))
  {
    if x.cfg.dry {
      DryRunIsQuiet(x, log);
      assert forall k | 0 <= k < |Planned(x, log)| :: IsQuiet(Planned(x, log)[k]);
    } else {
      match x.req
      case Replace =>
        TextsArePlain(x.cfg, x.file, [], x.answers);
        ReplaceMisses(x.cfg, x.file, x.answers, TextsFor(x.cfg, x.file, [], x.answers));
      case Remap(targets) =>
        var resolved := Resolved(targets, x.answers.episodes);
        TextsArePlain(x.cfg, x.file, resolved, x.answers);
        RemapMisses(x.cfg, targets, resolved, StagedName(x.file, resolved), x.answers,
                    TextsFor(x.cfg, x.file, resolved, x.answers));
    }
  }

  lemma {:induction false} LoggedFrom(events: seq<Event>)
    ensures forall e | e in Logged(events) :: exists k :: 0 <= k < |events| && events[k].Log? && events[k].entry == e
  {
    if events != [] {
      LoggedFrom(events[1..]);
      forall e | e in Logged(events[1..]) ensures exists k :: 0 <= k < |events| && events[k].Log? && events[k].entry == e {
        var k :| 0 <= k < |events[1..]| && events[1..][k].Log? && events[1..][k].entry == e;
        assert events[k + 1].entry == e;
      }
    }
  }

  /** What trips the guard is a mutating entry of the run itself, if there was none before. */
  lemma InterruptedBy(log: seq<Entry>, events: seq<Event>)
    requires !WasInterrupted(log)
    ensures WasInterrupted(log + Logged(events)) <==> Mutated(events)
  {
    LoggedFrom(events);
    if k :| 0 <= k < |events| && IsMutatingLog(events[k]) {
      LoggedHas(events, k);
      assert events[k].entry in log + Logged(events);
    }
  }

  lemma MutatedIffSeen(planned: seq<Event>, events: seq<Event>, k: nat)
    requires Gapless(planned) && events <= planned && k < |events| && IsAccepted(events[k])
    ensures Mutated(events) <==> SeenBefore(planned, k) || |events| > k + 1
  {
    if m :| 0 <= m < |events| && IsMutatingLog(events[m]) {
      assert m < k ==> IsMutatingLog(planned[m]);
    }
    if m :| 0 <= m < k && m < |planned| && IsMutatingLog(planned[m]) {
      assert IsMutatingLog(events[m]);
    }
    if |events| > k + 1 {
      assert IsMutatingLog(events[k + 1]);
    }
  }

  /** The crash gap, exactly.  An attempt on an uninterrupted row got call k accepted.  The guard misses
      it, so that a later attempt starts over, if and only if the attempt died right after that call and
      the call is one that nothing is logged before: the blocklist call of a replace, or the delete of a
      replace without download history and without trash.  Otherwise later attempts stop at the guard. */
  lemma CrashGapIff(x: Attempt, log: seq<Entry>, k: nat, later: Attempt)
    requires Agree(x.cfg) && !WasInterrupted(log)
    ensures AcceptedAt(Happened(x, log), k) ==>
              var after := log + Logged(Happened(x, log));
              && (!WasInterrupted(after) <==>
                    x.crash == k + 1 && Happened(x, log)[k].call in Missable(x.req, x.cfg, x.file))
              && Planned(later, after) == if WasInterrupted(after) then GuardEvents(later.cfg) else Planned(later, log)
  {
    var planned, events := Planned(x, log), Happened(x, log);
    if AcceptedAt(events, k) {
      InterruptedBy(log, events);
      RunIsRegular(x.req, x.cfg, x.file, x.answers, log);
      PlanMisses(x, log);
      MutatedIffSeen(planned, events, k);
      CutRightAfter(x, log, k);
      PlanAfter(later, log, log + Logged(events));
    }
  }

  lemma CutRightAfter(x: Attempt, log: seq<Entry>, k: nat)
    requires Gapless(Planned(x, log)) && AcceptedAt(Happened(x, log), k)
    ensures |Happened(x, log)| == k + 1 <==> x.crash == k + 1
    ensures Planned(x, log)[k] == Happened(x, log)[k]
  {
    assert IsAccepted(Planned(x, log)[k]);
  }

  lemma PlanAfter(y: Attempt, log: seq<Entry>, after: seq<Entry>)
    requires !WasInterrupted(log)
    ensures Planned(y, after) == if WasInterrupted(after) then GuardEvents(y.cfg) else Planned(y, log)
  {
    if WasInterrupted(after) {
      InterruptedMeansGuard(y, after);
    } else {
      SamePlan(y, after, log);
    }
  }

  /** A remap is never repeated: once one of its calls was accepted, no later attempt on the verdict row
      gets any call accepted, however the remap ended. */
  lemma RemapIsNeverRepeated(log: seq<Entry>, xs: seq<Attempt>, i: nat, j: nat, k: nat, l: nat)
    requires i < j < |xs| && xs[i].req.Remap? && Agree(xs[i].cfg)
    ensures !(AcceptedAt(Nth(log, xs, i), k) && AcceptedAt(Nth(log, xs, j), l))
  {
    var before := LogAfter(log, xs[..i]);
    if AcceptedAt(Nth(log, xs, i), k) {
      AcceptedMeansNotInterrupted(xs[i], before, k);
      CrashGapIff(xs[i], before, k, xs[j]);
      InterruptedBy(before, Nth(log, xs, i));
      MutationInterrupts(log, xs, i, j);
      AcceptedMeansNotInterrupted(xs[j], LogAfter(log, xs[..j]), l);
    }
  }

  /** The gap is real: a replace that dies between Sonarr's delete and its log commit is started over,
      and the delete is sent again. */
  lemma CrashGapRepeatsTheDelete()
    ensures var cfg := Config(false, false, false);
            var xs := [Sample(Replace, cfg, 2), Sample(Replace, cfg, 9)];
            && Nth([], xs, 0)[1] == Mutate(DeleteFile, true, true)
            && |Nth([], xs, 1)| > 1 && Nth([], xs, 1)[1] == Mutate(DeleteFile, true, true)
  {
    var cfg := Config(false, false, false);
    var x, y := Sample(Replace, cfg, 2), Sample(Replace, cfg, 9);
    var xs := [x, y];
    var t := TextsFor(cfg, x.file, [], x.answers);
    var events := ReplaceEvents(cfg, x.file, x.answers, t);
    assert events[0] == LogEvent(cfg, MarkHistoryFailed, true, NO_HISTORY_NOTE);
    assert events[1] == Mutate(DeleteFile, true, true);
    assert Planned(x, []) == events;
    assert xs[..0] == [] && xs[..1] == [x] && [x][..0] == [];
    assert LogAfter([], [x]) == Logged(Happened(x, []));
    NoteDoesNotInterrupt(cfg, Happened(x, []));
    SamePlan(y, LogAfter([], [x]), []);
    assert Planned(y, []) == events;
  }

  lemma NoteDoesNotInterrupt(cfg: Config, events: seq<Event>)
    requires |events| == 2 && events[0] == LogEvent(cfg, MarkHistoryFailed, true, NO_HISTORY_NOTE)
    requires !events[1].Log?
    ensures !WasInterrupted(Logged(events))
  {
    NoteIsNotMutating(cfg);
    assert events[1..][1..] == [];
    assert Logged(events[1..]) == [];
    assert Logged(events) == [events[0].entry];
  }
}
