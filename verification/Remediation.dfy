/**
 The remediation choreography of `remediate.py`: `replace` and `remap` as sequences of events.

 A run is a function of what the world answers; the events are the calls that reach Sonarr, the
 copies made on disk, the log commits, and the final release of the job.  A crash between any two
 steps leaves a prefix of the run's events, so a statement about every prefix is a statement about
 every crash.  The log belongs to one verdict row.
 */
module Remediation {
  import opened Options
  import opened Decimal

  datatype Step =
    | InterruptionGuard | EpisodeResolution | OccupiedCheck
    | Trash | Hardlink | MarkHistoryFailed | DeleteEpisodeFile
    | ManualImportCandidates | ExecuteManualImport | ManualImport | EpisodeSearch

  const MUTATING_STEPS: set<Step> :=
    {Trash, Hardlink, MarkHistoryFailed, DeleteEpisodeFile,
     ManualImportCandidates, ExecuteManualImport, ManualImport, EpisodeSearch}

  datatype Entry = Entry(step: Step, ok: bool, detail: string)

  const DRY_PREFIX := "DRY-RUN: "
  const NO_HISTORY := "no download history exists"
  const NO_HISTORY_NOTE :=
    NO_HISTORY + " for this file, so the release cannot be blocklisted \U{2014} deleting and re-searching only"
  const UNKNOWN_TARGET := "refusing remap: target episode ids not found in series"
  const OCCUPIED_TARGET := "refusing remap: target episode(s) already have a file"
  const GUARD_NOTE := "remediation previously interrupted; operator review required"

  predicate StartsWith(s: string, prefix: string) {
    prefix <= s
  }

  predicate Contains(s: string, part: string)
    requires part != ""
  {
    |part| <= |s| && (part <= s || Contains(s[1..], part))
  }

  predicate IsMutatingEntry(e: Entry) {
    && e.ok
    && !StartsWith(e.detail, DRY_PREFIX)
    && !(e.step == MarkHistoryFailed && Contains(e.detail, NO_HISTORY))
    && e.step in MUTATING_STEPS
  }

  predicate WasInterrupted(log: seq<Entry>) {
    exists e | e in log :: IsMutatingEntry(e)
  }

  // ----- what a run is given -----

  /** `dry`: the Remediator's flag; `clientDry`: the Sonarr client's; `trash`: trash is enabled. */
  datatype Config = Config(dry: bool, clientDry: bool, trash: bool)

  predicate Agree(cfg: Config) {
    cfg.dry == cfg.clientDry
  }

  datatype Episode = Episode(id: nat, season: nat, number: nat, hasFile: bool)

  datatype File = File(historyId: Option<nat>, episodeFileId: nat, seriesId: nat, episodeIds: seq<nat>, suffix: string)

  datatype Request = Replace | Remap(targets: set<nat>)

  /** Sonarr's answer to a mutating call.  A call that fails may still have taken effect. */
  datatype Reply = Accepted | Failed(message: string, took: bool)

  datatype Link = Linked | CrossDevice | LinkFailed(message: string)

  /** How the file system answers `mkdir`, `link` and, across devices, `copy2`. */
  datatype Disk = Disk(mkdirError: Option<string>, link: Link, copyError: Option<string>)

  datatype Candidates = Listed(names: seq<string>) | ListFailed(message: string)

  datatype Answers = Answers(
    mark: Reply, delete: Reply, search: Reply, imported: Reply,
    trashDisk: Disk, stagingDisk: Disk, episodes: seq<Episode>, candidates: Candidates,
    trashPath: string, expiresAt: string, stagingDir: string)

  /** The error message of the attempt to preserve the file, or None if a complete copy exists. */
  function PreserveError(d: Disk): Option<string> {
    if d.mkdirError.Some? then d.mkdirError
    else match d.link
      case Linked => None
      case CrossDevice => d.copyError
      case LinkFailed(message) => Some(message)
  }

  // ----- what a run does -----

  datatype Call = MarkFailed | DeleteFile | Search | Import

  datatype Place = Staging | TrashDir

  datatype JobStatus = Quarantine | Remediated

  datatype Event =
    | Mutate(call: Call, accepted: bool, took: bool)   // a POST or DELETE sent to Sonarr
    | Copied(place: Place, complete: bool)             // an attempted hardlink or copy
    | Log(entry: Entry, trashRow: bool)                // one commit, with the trash row if there is one
    | Release(status: JobStatus)

  function LogEvent(cfg: Config, step: Step, ok: bool, detail: string): Event {
    Log(Entry(step, ok, if cfg.dry then DRY_PREFIX + detail else detail), false)
  }

  /** A stage of the choreography: what it does, and whether the run goes on after it. */
  datatype Stage = Stage(events: seq<Event>, proceed: bool)

  function Then(s: Stage, rest: seq<Event>): seq<Event> {
    s.events + if s.proceed then rest else []
  }

  function Refuse(cfg: Config, step: Step, detail: string): Stage {
    Stage([LogEvent(cfg, step, false, detail), Release(Quarantine)], false)
  }

  /** A mutating Sonarr call, its log entry, and the quarantine if it failed. */
  function CallStage(cfg: Config, step: Step, call: Call, reply: Reply, detail: string, failure: string): Stage {
    if cfg.clientDry then Stage([LogEvent(cfg, step, true, detail)], true)
    else match reply
      case Accepted => Stage([Mutate(call, true, true), LogEvent(cfg, step, true, detail)], true)
      case Failed(message, took) =>
        var refusal := Refuse(cfg, step, message + failure);
        refusal.(events := [Mutate(call, false, took)] + refusal.events)
  }

  // ----- the target and the wording -----

  function Resolved(targets: set<nat>, episodes: seq<Episode>): seq<Episode> {
    if episodes == [] then []
    else if episodes[0].id in targets then InsertByNumber(episodes[0], Resolved(targets, episodes[1..]))
    else Resolved(targets, episodes[1..])
  }

  /** Stable insertion: an earlier episode stays before an equal number. */
  function InsertByNumber(ep: Episode, sorted: seq<Episode>): seq<Episode> {
    if sorted == [] || ep.number <= sorted[0].number then [ep] + sorted
    else [sorted[0]] + InsertByNumber(ep, sorted[1..])
  }

  function Ids(episodes: seq<Episode>): set<nat> {
    set i | 0 <= i < |episodes| :: episodes[i].id
  }

  function EpisodePart(episodes: seq<Episode>): string {
    if episodes == [] then ""
    else "E" + Padded(episodes[0].number, 2)
         + if |episodes| == 1 then "" else "-" + EpisodePart(episodes[1..])
  }

  function StagedLabel(resolved: seq<Episode>): string {
    (if resolved == [] then "" else "S" + Padded(resolved[0].season, 2)) + EpisodePart(resolved)
  }

  function StagedName(file: File, resolved: seq<Episode>): string {
    StagedLabel(resolved) + file.suffix
  }

  function ShowIds(ids: seq<nat>): string {
    if ids == [] then "" else Show(ids[0]) + "," + ShowIds(ids[1..])
  }

  /** The details a run logs; the `...Failure` texts follow the error message of a failed step. */
  datatype Texts = Texts(
    marked: string, wouldTrash: string, trashed: string, trashFailure: string,
    removed: string, searched: string, staged: string, stagingFailure: string,
    released: string, matched: string, unmatched: string, imported: string)

  function TextsFor(cfg: Config, file: File, resolved: seq<Episode>, a: Answers): Texts {
    var name := StagedName(file, resolved);
    var path := a.stagingDir + "/" + name;
    var expiry := " (expires " + (a.expiresAt + ")");
    var retained := if cfg.trash then "; copy retained in trash until " + a.expiresAt else "";
    Texts(
      "history_id=" + match file.historyId case Some(id) => Show(id) case None => "",
      "would copy file to trash: " + (a.trashPath + expiry),
      "copied file to trash: " + (a.trashPath + expiry),
      "; trash_path=" + a.trashPath,
      "removed file via Sonarr " + ("(episode_file_id=" + Show(file.episodeFileId) + retained + ")"),
      "episode_ids=" + ShowIds(file.episodeIds),
      "preserved file data in staging: " + path,
      "; staging_path=" + path,
      "released the mislabelled file "
      + ("record from Sonarr (episode_file_id=" + Show(file.episodeFileId) + "; file data preserved in staging)"),
      "matched candidate path=" + name,
      "no candidate matched staged file " + name,
      "imported staged file as " + StagedLabel(resolved))
  }

  // ----- the stages -----

  function MarkStage(cfg: Config, file: File, a: Answers, t: Texts): Stage {
    if file.historyId.Some? then CallStage(cfg, MarkHistoryFailed, MarkFailed, a.mark, t.marked, "")
    else Stage([LogEvent(cfg, MarkHistoryFailed, true, NO_HISTORY_NOTE)], true)
  }

  function TrashStage(cfg: Config, a: Answers, t: Texts): Stage {
    if !cfg.trash then Stage([], true)
    else if cfg.dry then Stage([LogEvent(cfg, Trash, true, t.wouldTrash)], true)
    else match PreserveError(a.trashDisk)
      case Some(message) =>
        var refusal := Refuse(cfg, Trash, message + t.trashFailure);
        refusal.(events := [Copied(TrashDir, false)] + refusal.events)
      case None =>
        Stage([Copied(TrashDir, true), Log(Entry(Trash, true, t.trashed), true)], true)
  }

  function ReplaceDeleteStage(cfg: Config, a: Answers, t: Texts): Stage {
    CallStage(cfg, DeleteEpisodeFile, DeleteFile, a.delete, t.removed, "")
  }

  function SearchStage(cfg: Config, a: Answers, t: Texts): Stage {
    CallStage(cfg, EpisodeSearch, Search, a.search, t.searched, "")
  }

  function ReplaceEvents(cfg: Config, file: File, a: Answers, t: Texts): seq<Event> {
    Then(MarkStage(cfg, file, a, t),
         Then(TrashStage(cfg, a, t),
              Then(ReplaceDeleteStage(cfg, a, t),
                   Then(SearchStage(cfg, a, t), [Release(Remediated)]))))
  }

  /** The refusals before anything is touched: a target that is unknown, or already has a file. */
  function TargetStage(cfg: Config, targets: set<nat>, resolved: seq<Episode>): Stage {
    if targets - Ids(resolved) != {} then
      Refuse(cfg, EpisodeResolution, UNKNOWN_TARGET)
    else if exists ep | ep in resolved :: ep.hasFile then
      Refuse(cfg, OccupiedCheck, OCCUPIED_TARGET)
    else Stage([], true)
  }

  function HardlinkStage(cfg: Config, a: Answers, t: Texts): Stage {
    if cfg.dry then Stage([LogEvent(cfg, Hardlink, true, t.staged)], true)
    else match PreserveError(a.stagingDisk)
      case Some(message) =>
        var refusal := Refuse(cfg, Hardlink, message + t.stagingFailure);
        refusal.(events := [Copied(Staging, false)] + refusal.events)
      case None => Stage([Copied(Staging, true), LogEvent(cfg, Hardlink, true, t.staged)], true)
  }

  function RemapDeleteStage(cfg: Config, a: Answers, t: Texts): Stage {
    CallStage(cfg, DeleteEpisodeFile, DeleteFile, a.delete, t.released, t.stagingFailure)
  }

  /** The listing is a GET: it is sent even by a dry-run client and changes nothing. */
  function CandidatesStage(cfg: Config, name: string, a: Answers, t: Texts): Stage {
    match a.candidates
    case ListFailed(message) => Refuse(cfg, ManualImportCandidates, message + t.stagingFailure)
    case Listed(names) =>
      if name in names then Stage([LogEvent(cfg, ManualImportCandidates, true, t.matched)], true)
      else Refuse(cfg, ManualImportCandidates, t.unmatched + t.stagingFailure)
  }

  function ImportStage(cfg: Config, a: Answers, t: Texts): Stage {
    CallStage(cfg, ExecuteManualImport, Import, a.imported, t.imported, t.stagingFailure)
  }

  /** The part of `remap` after Sonarr has released the file. */
  function RemapTail(cfg: Config, name: string, a: Answers, t: Texts): seq<Event> {
    if cfg.dry then [LogEvent(cfg, ManualImport, true, t.imported), Release(Remediated)]
    else Then(CandidatesStage(cfg, name, a, t), Then(ImportStage(cfg, a, t), [Release(Remediated)]))
  }

  function RemapEvents(cfg: Config, targets: set<nat>, resolved: seq<Episode>, name: string, a: Answers, t: Texts): seq<Event> {
    Then(TargetStage(cfg, targets, resolved),
         Then(HardlinkStage(cfg, a, t),
              Then(RemapDeleteStage(cfg, a, t), RemapTail(cfg, name, a, t))))
  }

  function GuardEvents(cfg: Config): seq<Event> {
    Refuse(cfg, InterruptionGuard, GUARD_NOTE).events
  }

  /** Everything one call of `replace` or `remap` does, given the verdict's log on entry.  An empty target
      passes both refusals, and then naming the staged file raises before anything is done. */
  function RunEvents(req: Request, cfg: Config, file: File, a: Answers, log: seq<Entry>): seq<Event> {
    if WasInterrupted(log) then GuardEvents(cfg)
    else match req
      case Replace => ReplaceEvents(cfg, file, a, TextsFor(cfg, file, [], a))
      case Remap(targets) =>
        var resolved := Resolved(targets, a.episodes);
        if targets == {} then []
        else RemapEvents(cfg, targets, resolved, StagedName(file, resolved), a, TextsFor(cfg, file, resolved, a))
  }

  /** The entries a run appends to the log. */
  function Logged(events: seq<Event>): seq<Entry> {
    if events == [] then []
    else (if events[0].Log? then [events[0].entry] else []) + Logged(events[1..])
  }

  lemma {:induction false} LoggedConcat(a: seq<Event>, b: seq<Event>)
    ensures Logged(a + b) == Logged(a) + Logged(b)
  {
    if a == [] {
      assert a + b == b;
    } else {
      var first := if a[0].Log? then [a[0].entry] else [];
      assert (a + b)[0] == a[0] && (a + b)[1..] == a[1..] + b;
      LoggedConcat(a[1..], b);
      assert Logged(a + b) == first + (Logged(a[1..]) + Logged(b));
    }
  }
}
