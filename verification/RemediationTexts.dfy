/** What the entries and the staged name of a remediation tell. */
module RemediationTexts {
  import opened Options
  import opened Decimal
  import opened Remediation
  import opened RemapTargets
  import opened DryRuns
  import opened RemediationResults

  // ----- dry runs -----

  /** A dry run logs the same step with the same text behind its mark. */
  lemma DetailIsKept(cfg: Config, step: Step, ok: bool, detail: string)
    ensures var plain, dry := LogEvent(cfg.(dry := false), step, ok, detail), LogEvent(cfg.(dry := true), step, ok, detail);
            && plain.entry.detail == detail && dry.entry.step == plain.entry.step && dry.entry.ok == plain.entry.ok
            && |dry.entry.detail| >= 9 && dry.entry.detail[..9] == "DRY-RUN: " && dry.entry.detail[9..] == detail
  {
  }

  // ----- what the entries name -----

  /** The text has this part somewhere. */
  predicate Tells(s: string, part: string) {
    exists i: nat | i <= |s| :: PartAt(s, part, i)
  }

  lemma PartInside(head: string, part: string, tail: string)
    ensures PartAt(head + (part + tail), part, |head|) && Tells(head + (part + tail), part)
  {
    var whole := head + (part + tail);
    assert whole[|head|..|head| + |part|] == part;
    assert |head| <= |whole| && PartAt(whole, part, |head|);
  }

  lemma PartLast(head: string, part: string)
    ensures Tells(head + part, part)
  {
    PartInside(head, part, "");
    assert part + "" == part;
  }

  lemma TellsIn(head: string, s: string, tail: string, part: string)
    requires Tells(s, part)
    ensures Tells(head + (s + tail), part)
  {
    var i: nat :| i <= |s| && PartAt(s, part, i);
    assert (head + (s + tail))[|head| + i..|head| + i + |part|] == s[i..i + |part|];
    assert PartAt(head + (s + tail), part, |head| + i);
  }

  lemma TellsAfter(head: string, s: string, part: string)
    requires Tells(s, part)
    ensures Tells(head + s, part)
  {
    TellsIn(head, s, "", part);
    assert s + "" == s;
  }

  function StagingPath(file: File, resolved: seq<Episode>, a: Answers): string {
    a.stagingDir + "/" + StagedName(file, resolved)
  }

  lemma TrashTextsTell(cfg: Config, file: File, resolved: seq<Episode>, a: Answers)
    ensures var t := TextsFor(cfg, file, resolved, a);
            && Tells(t.trashFailure, a.trashPath)
            && Tells(t.trashed, a.trashPath) && Tells(t.trashed, a.expiresAt)
            && Tells(t.wouldTrash, a.trashPath) && Tells(t.wouldTrash, a.expiresAt)
  {
    var expiry := " (expires " + (a.expiresAt + ")");
    PartLast("; trash_path=", a.trashPath);
    PartInside("copied file to trash: ", a.trashPath, expiry);
    PartInside("would copy file to trash: ", a.trashPath, expiry);
    PartInside(" (expires ", a.expiresAt, ")");
    TellsAfter(a.trashPath, expiry, a.expiresAt);
    TellsAfter("copied file to trash: ", a.trashPath + expiry, a.expiresAt);
    TellsAfter("would copy file to trash: ", a.trashPath + expiry, a.expiresAt);
  }

  lemma StagingTextsTell(cfg: Config, file: File, resolved: seq<Episode>, a: Answers)
    ensures var t := TextsFor(cfg, file, resolved, a);
            && Tells(t.staged, StagingPath(file, resolved, a)) && Tells(t.stagingFailure, StagingPath(file, resolved, a))
            && Tells(t.matched, StagedName(file, resolved)) && Tells(t.unmatched, StagedName(file, resolved))
            && Tells(t.imported, StagedLabel(resolved))
  {
    PartLast("preserved file data in staging: ", StagingPath(file, resolved, a));
    PartLast("; staging_path=", StagingPath(file, resolved, a));
    PartLast("matched candidate path=", StagedName(file, resolved));
    PartLast("no candidate matched staged file ", StagedName(file, resolved));
    PartLast("imported staged file as ", StagedLabel(resolved));
  }

  lemma ReplaceTextsTell(cfg: Config, file: File, resolved: seq<Episode>, a: Answers)
    ensures var t := TextsFor(cfg, file, resolved, a);
            && (file.historyId.Some? ==> Tells(t.marked, Show(file.historyId.value)))
            && Tells(t.removed, Show(file.episodeFileId)) && Tells(t.released, Show(file.episodeFileId))
            && forall id | id in file.episodeIds :: Tells(t.searched, Show(id))
  {
    var t, number := TextsFor(cfg, file, resolved, a), Show(file.episodeFileId);
    if file.historyId.Some? {
      PartLast("history_id=", Show(file.historyId.value));
    }
    var rest := (if cfg.trash then "; copy retained in trash until " + a.expiresAt else "") + ")";
    assert "(episode_file_id=" + number + (if cfg.trash then "; copy retained in trash until " + a.expiresAt else "") + ")"
        == "(episode_file_id=" + (number + rest);
    PartInside("(episode_file_id=", number, rest);
    TellsAfter("removed file via Sonarr ", "(episode_file_id=" + (number + rest), number);
    ReleasedTells(number);
    forall id | id in file.episodeIds ensures Tells(t.searched, Show(id)) {
      IdsTell(file.episodeIds, id);
      TellsAfter("episode_ids=", ShowIds(file.episodeIds), Show(id));
    }
  }

  lemma ReleasedTells(number: string)
    ensures Tells("released the mislabelled file "
                  + ("record from Sonarr (episode_file_id=" + number + "; file data preserved in staging)"), number)
  {
    var head, tail := "record from Sonarr (episode_file_id=", "; file data preserved in staging)";
    PartInside(head, number, tail);
    assert head + number + tail == head + (number + tail);
    TellsAfter("released the mislabelled file ", head + (number + tail), number);
  }

  lemma {:induction false} IdsTell(ids: seq<nat>, id: nat)
    requires id in ids
    ensures Tells(ShowIds(ids), Show(id))
  {
    var first, rest := Show(ids[0]), ShowIds(ids[1..]);
    FirstThenRest(first, rest);
    assert ShowIds(ids) == first + "," + rest;
    if ids[0] == id {
      PartInside("", first, "," + rest);
    } else {
      IdsTell(ids[1..], id);
      TellsAfter(first + ",", rest, Show(id));
    }
  }

  lemma FirstThenRest(first: string, rest: string)
    ensures first + "," + rest == "" + (first + ("," + rest))
  {
  }

  // ----- a failed remap names the staged file -----

  /** Quarantined at the end, by an entry that tells this. */
  ghost predicate EndsTelling(events: seq<Event>, part: string) {
    |events| >= 2 && events[|events| - 1] == Release(Quarantine)
    && events[|events| - 2].Log? && !events[|events| - 2].entry.ok && Tells(events[|events| - 2].entry.detail, part)
  }

  ghost predicate Fails(s: Stage, part: string) {
    !s.proceed ==> EndsTelling(s.events, part)
  }

  lemma FailsThen(s: Stage, rest: seq<Event>, part: string)
    requires Fails(s, part) && (EndsTelling(rest, part) || EndsWith(rest, Remediated))
    ensures EndsTelling(Then(s, rest), part) || EndsWith(Then(s, rest), Remediated)
  {
    assert !s.proceed ==> Then(s, rest) == s.events;
  }

  lemma RefuseTells(cfg: Config, step: Step, message: string, failure: string, part: string)
    requires Tells(failure, part)
    ensures EndsTelling(Refuse(cfg, step, message + failure).events, part)
  {
    TellsAfter(message, failure, part);
    TellsAfter(DRY_PREFIX, message + failure, part);
  }

  lemma CallFailsTelling(cfg: Config, step: Step, call: Call, reply: Reply, detail: string, failure: string, part: string)
    requires Tells(failure, part)
    ensures Fails(CallStage(cfg, step, call, reply, detail, failure), part)
  {
    if reply.Failed? {
      RefuseTells(cfg, step, reply.message, failure, part);
    }
  }

  lemma TailFailsTelling(cfg: Config, name: string, a: Answers, t: Texts, part: string)
    requires Tells(t.stagingFailure, part)
    ensures EndsTelling(RemapTail(cfg, name, a, t), part) || EndsWith(RemapTail(cfg, name, a, t), Remediated)
  {
    if !cfg.dry {
      CallFailsTelling(cfg, ExecuteManualImport, Import, a.imported, t.imported, t.stagingFailure, part);
      FailsThen(ImportStage(cfg, a, t), [Release(Remediated)], part);
      RefuseTells(cfg, ManualImportCandidates, if a.candidates.ListFailed? then a.candidates.message else t.unmatched,
                  t.stagingFailure, part);
      FailsThen(CandidatesStage(cfg, name, a, t), Then(ImportStage(cfg, a, t), [Release(Remediated)]), part);
    }
  }

  lemma HardlinkFailsTelling(cfg: Config, a: Answers, t: Texts, part: string)
    requires Tells(t.stagingFailure, part)
    ensures Fails(HardlinkStage(cfg, a, t), part)
  {
    if PreserveError(a.stagingDisk).Some? {
      RefuseTells(cfg, Hardlink, PreserveError(a.stagingDisk).value, t.stagingFailure, part);
    }
  }

  /** Whatever makes a remap fail once its target is found known and free, the last entry names the staged file, so
      that the operator can find it. */
  lemma FailedRemapNamesTheFile(targets: set<nat>, cfg: Config, file: File, a: Answers, log: seq<Entry>)
    requires !WasInterrupted(log) && targets != {} && !Unknown(targets, a.episodes) && !Taken(targets, a.episodes)
    ensures var events := RunEvents(Remap(targets), cfg, file, a, log);
            EndsWith(events, Remediated) || EndsTelling(events, StagingPath(file, Resolved(targets, a.episodes), a))
  {
    var resolved := Resolved(targets, a.episodes);
    var t, name, part := TextsFor(cfg, file, resolved, a), StagedName(file, resolved), StagingPath(file, resolved, a);
    var tail := RemapTail(cfg, name, a, t);
    var delete := Then(RemapDeleteStage(cfg, a, t), tail);
    StagingTextsTell(cfg, file, resolved, a);
    TailFailsTelling(cfg, name, a, t, part);
    CallFailsTelling(cfg, DeleteEpisodeFile, DeleteFile, a.delete, t.released, t.stagingFailure, part);
    FailsThen(RemapDeleteStage(cfg, a, t), tail, part);
    HardlinkFailsTelling(cfg, a, t, part);
    FailsThen(HardlinkStage(cfg, a, t), delete, part);
    TargetStageMeaning(cfg, targets, a.episodes);
    assert Then(Stage([], true), Then(HardlinkStage(cfg, a, t), delete)) == Then(HardlinkStage(cfg, a, t), delete);
  }

  lemma TrashFailsTelling(cfg: Config, a: Answers, t: Texts)
    requires Tells(t.trashFailure, a.trashPath)
    ensures Fails(TrashStage(cfg, a, t), a.trashPath)
  {
    if PreserveError(a.trashDisk).Some? {
      RefuseTells(cfg, Trash, PreserveError(a.trashDisk).value, t.trashFailure, a.trashPath);
    }
  }

  /** A trash copy that fails ends the replace, and the entry names where it was to be. */
  lemma FailedTrashNamesTheCopy(cfg: Config, file: File, a: Answers)
    ensures Fails(TrashStage(cfg, a, TextsFor(cfg, file, [], a)), a.trashPath)
  {
    TrashTextsTell(cfg, file, [], a);
    TrashFailsTelling(cfg, a, TextsFor(cfg, file, [], a));
  }

  // ----- retention -----

  /** The entry of the delete tells until when the trash keeps the copy, if there is one. */
  lemma RetentionIsTold(cfg: Config, file: File, resolved: seq<Episode>, a: Answers)
    ensures var removed := TextsFor(cfg, file, resolved, a).removed;
            if cfg.trash then Tells(removed, "; copy retained in trash until " + a.expiresAt)
            else removed == "removed file via Sonarr " + ("(episode_file_id=" + Show(file.episodeFileId) + ")")
  {
    var head, told := "(episode_file_id=" + Show(file.episodeFileId), "; copy retained in trash until " + a.expiresAt;
    var removed := TextsFor(cfg, file, resolved, a).removed;
    if cfg.trash {
      assert removed == "removed file via Sonarr " + (head + told + ")");
      Regroup("removed file via Sonarr ", head, told, ")");
      PartInside("removed file via Sonarr " + head, told, ")");
    } else {
      assert head + "" == head;
    }
  }

  lemma Regroup(a: string, b: string, c: string, d: string)
    ensures a + (b + c + d) == (a + b) + (c + d)
  {
  }

  // ----- the staged name -----

  function Numbers(episodes: seq<Episode>): seq<nat> {
    if episodes == [] then [] else [episodes[0].number] + Numbers(episodes[1..])
  }

  function Lead(s: string): nat {
    if s != "" && IsDigit(s[0]) then 1 + Lead(s[1..]) else 0
  }

  lemma {:induction false} LeadIs(p: string, r: string)
    requires AllDigits(p) && (r == "" || !IsDigit(r[0]))
    ensures Lead(p + r) == |p|
  {
    if p == "" {
      assert p + r == r;
    } else {
      assert (p + r)[1..] == p[1..] + r;
      LeadIs(p[1..], r);
    }
  }

  lemma DigitsEnd(p: string, r: string, q: string, r': string)
    requires AllDigits(p) && AllDigits(q) && p + r == q + r'
    requires (r == "" || !IsDigit(r[0])) && (r' == "" || !IsDigit(r'[0]))
    ensures p == q && r == r'
  {
    LeadIs(p, r);
    LeadIs(q, r');
    assert p == (p + r)[..|p|] && q == (q + r')[..|q|];
    assert r == (p + r)[|p|..] && r' == (q + r')[|q|..];
  }

  lemma SameTail(c: char, x: string, y: string)
    requires [c] + x == [c] + y
    ensures x == y
  {
    assert x == ([c] + x)[1..] && y == ([c] + y)[1..];
  }

  /** What follows the first number of the episode part. */
  function PartTail(episodes: seq<Episode>): string
    requires episodes != []
  {
    if |episodes| == 1 then "" else "-" + EpisodePart(episodes[1..])
  }

  lemma PartIs(episodes: seq<Episode>)
    requires episodes != []
    ensures EpisodePart(episodes) == "E" + (Padded(episodes[0].number, 2) + PartTail(episodes))
  {
  }

  lemma {:induction false} EpisodePartTells(a: seq<Episode>, b: seq<Episode>)
    requires EpisodePart(a) == EpisodePart(b)
    ensures Numbers(a) == Numbers(b)
    decreases |a|
  {
    if a != [] && b != [] {
      var p, q, r, r' := Padded(a[0].number, 2), Padded(b[0].number, 2), PartTail(a), PartTail(b);
      PartIs(a);
      PartIs(b);
      SameTail('E', p + r, q + r');
      DigitsEnd(p, r, q, r');
      assert a[0].number == Value(p) == b[0].number;
      if |a| > 1 && |b| > 1 {
        SameTail('-', EpisodePart(a[1..]), EpisodePart(b[1..]));
        EpisodePartTells(a[1..], b[1..]);
      }
    }
  }

  lemma PartIsNotDigits(episodes: seq<Episode>)
    requires episodes != []
    ensures EpisodePart(episodes) != "" && !IsDigit(EpisodePart(episodes)[0])
  {
    PartIs(episodes);
  }

  lemma NameIs(file: File, a: seq<Episode>)
    requires a != []
    ensures StagedName(file, a) == ("S" + (Padded(a[0].season, 2) + EpisodePart(a))) + file.suffix
  {
    assert ("S" + Padded(a[0].season, 2)) + EpisodePart(a) == "S" + (Padded(a[0].season, 2) + EpisodePart(a));
  }

  lemma SameHead(x: string, y: string, suffix: string)
    requires x + suffix == y + suffix
    ensures x == y
  {
    assert |x| == |y|;
    assert x == (x + suffix)[..|x|] && y == (y + suffix)[..|y|];
  }

  /** The staged name tells the target: the same name means the same season and the same episode numbers. */
  lemma StagedNameTells(file: File, a: seq<Episode>, b: seq<Episode>)
    requires a != [] && b != [] && StagedName(file, a) == StagedName(file, b)
    ensures a[0].season == b[0].season && Numbers(a) == Numbers(b)
  {
    var p, q, r, r' := Padded(a[0].season, 2), Padded(b[0].season, 2), EpisodePart(a), EpisodePart(b);
    NameIs(file, a);
    NameIs(file, b);
    SameHead("S" + (p + r), "S" + (q + r'), file.suffix);
    SameTail('S', p + r, q + r');
    PartIsNotDigits(a);
    PartIsNotDigits(b);
    DigitsEnd(p, r, q, r');
    assert a[0].season == Value(p) == b[0].season;
    EpisodePartTells(a, b);
  }

  lemma TwoDigits(n: nat)
    requires n < 100
    ensures |Padded(n, 2)| == 2
  {
  }

  /** Its form for numbers below 100: S and E with two digits each, and more episodes after dashes. */
  lemma StagedForm(file: File, a: seq<Episode>)
    requires a != [] && a[0].season < 100 && forall ep | ep in a :: ep.number < 100
    ensures |StagedName(file, a)| == 2 + 4 * |a| + |file.suffix|
    ensures StagedName(file, a)[0] == 'S' && StagedName(file, a)[3] == 'E'
    ensures forall i | 1 <= i < |a| :: StagedName(file, a)[2 + 4 * i] == '-' && StagedName(file, a)[3 + 4 * i] == 'E'
  {
    TwoDigits(a[0].season);
    PartForm(a);
    var name := "S" + Padded(a[0].season, 2);
    assert StagedName(file, a) == (name + EpisodePart(a)) + file.suffix;
    forall i | 1 <= i < |a| ensures StagedName(file, a)[2 + 4 * i] == '-' && StagedName(file, a)[3 + 4 * i] == 'E' {
      assert (name + EpisodePart(a))[2 + 4 * i] == EpisodePart(a)[4 * i - 1];
      assert (name + EpisodePart(a))[3 + 4 * i] == EpisodePart(a)[4 * i];
    }
  }

  lemma {:induction false} PartForm(a: seq<Episode>)
    requires a != [] && forall ep | ep in a :: ep.number < 100
    ensures |EpisodePart(a)| == 4 * |a| - 1 && EpisodePart(a)[0] == 'E'
    ensures forall i | 1 <= i < |a| :: EpisodePart(a)[4 * i - 1] == '-' && EpisodePart(a)[4 * i] == 'E'
    decreases |a|
  {
    assert a[0] in a && forall ep | ep in a[1..] :: ep in a;
    TwoDigits(a[0].number);
    if |a| > 1 {
      PartForm(a[1..]);
      var part, rest := EpisodePart(a), EpisodePart(a[1..]);
      assert part == ("E" + Padded(a[0].number, 2)) + ("-" + rest);
      forall i | 1 <= i < |a| ensures part[4 * i - 1] == '-' && part[4 * i] == 'E' {
        assert part[4 * i] == rest[4 * (i - 1)];
        if i > 1 {
          assert part[4 * i - 1] == rest[4 * (i - 1) - 1];
        }
      }
    }
  }
}
