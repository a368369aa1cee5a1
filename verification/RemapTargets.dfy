/** Which targets a remap refuses, told from Sonarr's episode list. */
module RemapTargets {
  import opened Options
  import opened Remediation
  import opened RemediationSafety

  /** Some target id is not in the series. */
  predicate Unknown(targets: set<nat>, episodes: seq<Episode>) {
    exists id | id in targets :: forall i | 0 <= i < |episodes| :: episodes[i].id != id
  }

  /** Some target episode has a file. */
  predicate Taken(targets: set<nat>, episodes: seq<Episode>) {
    exists ep | ep in episodes :: ep.id in targets && ep.hasFile
  }

  lemma {:induction false} InsertedHas(ep: Episode, sorted: seq<Episode>)
    ensures multiset(InsertByNumber(ep, sorted)) == multiset(sorted) + multiset{ep}
  {
    if sorted != [] && ep.number > sorted[0].number {
      assert sorted == [sorted[0]] + sorted[1..];
      InsertedHas(ep, sorted[1..]);
    }
  }

  predicate ByNumber(eps: seq<Episode>) {
    forall i, j | 0 <= i < j < |eps| :: eps[i].number <= eps[j].number
  }

  lemma {:induction false} InsertedAscends(ep: Episode, sorted: seq<Episode>)
    requires ByNumber(sorted)
    ensures ByNumber(InsertByNumber(ep, sorted))
  {
    if sorted != [] && ep.number > sorted[0].number {
      var rest := InsertByNumber(ep, sorted[1..]);
      InsertedAscends(ep, sorted[1..]);
      InsertedHas(ep, sorted[1..]);
      forall e | e in rest ensures sorted[0].number <= e.number {
        assert e in multiset(rest);
        assert e in multiset(sorted[1..]) || e == ep;
      }
    }
  }

  function Chosen(targets: set<nat>, episodes: seq<Episode>): multiset<Episode> {
    if episodes == [] then multiset{}
    else Chosen(targets, episodes[1..]) + if episodes[0].id in targets then multiset{episodes[0]} else multiset{}
  }

  /** The resolved target is the listed episodes with a target id, each as often as it is listed and as Sonarr
      lists it, ascending by number. */
  lemma {:induction false} ResolvedMeaning(targets: set<nat>, episodes: seq<Episode>)
    ensures multiset(Resolved(targets, episodes)) == Chosen(targets, episodes)
    ensures ByNumber(Resolved(targets, episodes))
    ensures forall ep :: ep in Resolved(targets, episodes) <==> ep in episodes && ep.id in targets
  {
    if episodes != [] {
      var rest := Resolved(targets, episodes[1..]);
      ResolvedMeaning(targets, episodes[1..]);
      assert episodes == [episodes[0]] + episodes[1..];
      if episodes[0].id in targets {
        InsertedHas(episodes[0], rest);
        InsertedAscends(episodes[0], rest);
        forall ep ensures ep in InsertByNumber(episodes[0], rest) <==> ep == episodes[0] || ep in rest {
          assert ep in InsertByNumber(episodes[0], rest) <==> ep in multiset(InsertByNumber(episodes[0], rest));
        }
      }
    }
  }

  lemma TargetMeaning(targets: set<nat>, episodes: seq<Episode>)
    ensures targets - Ids(Resolved(targets, episodes)) != {} <==> Unknown(targets, episodes)
    ensures (exists ep | ep in Resolved(targets, episodes) :: ep.hasFile) <==> Taken(targets, episodes)
  {
    var resolved := Resolved(targets, episodes);
    ResolvedMeaning(targets, episodes);
    forall id | id in targets ensures id in Ids(resolved) <==> exists i :: 0 <= i < |episodes| && episodes[i].id == id {
      IdResolves(targets, episodes, id);
    }
    if id :| id in targets && forall i | 0 <= i < |episodes| :: episodes[i].id != id {
      assert id in targets - Ids(resolved);
    }
  }

  lemma IdResolves(targets: set<nat>, episodes: seq<Episode>, id: nat)
    requires id in targets
    ensures id in Ids(Resolved(targets, episodes)) <==> exists i :: 0 <= i < |episodes| && episodes[i].id == id
  {
    var resolved := Resolved(targets, episodes);
    ResolvedMeaning(targets, episodes);
    if i :| 0 <= i < |episodes| && episodes[i].id == id {
      assert episodes[i] in resolved;
      var j :| 0 <= j < |resolved| && resolved[j] == episodes[i];
    }
    if id in Ids(resolved) {
      var j :| 0 <= j < |resolved| && resolved[j].id == id;
      assert resolved[j] in episodes;
      var i :| 0 <= i < |episodes| && episodes[i] == resolved[j];
    }
  }

  /** Nothing sent, nothing copied. */
  ghost predicate HandsOff(events: seq<Event>) {
    forall e | e in events :: !e.Mutate? && !e.Copied?
  }

  /** One failed entry and the quarantine. */
  ghost predicate Refuses(events: seq<Event>, step: Step) {
    && |events| == 2 && events[0].Log? && events[0].entry.step == step && !events[0].entry.ok
    && events[1] == Release(Quarantine)
  }

  /** On to preserving the file, or to the entry a dry run makes of it. */
  ghost predicate GoesOn(events: seq<Event>, cfg: Config) {
    events != [] && if cfg.dry then events[0].Log? && events[0].entry.step == Hardlink else events[0].Copied?
  }

  lemma TargetStageMeaning(cfg: Config, targets: set<nat>, episodes: seq<Episode>)
    ensures var s := TargetStage(cfg, targets, Resolved(targets, episodes));
            && (Unknown(targets, episodes) ==> !s.proceed && HandsOff(s.events) && Refuses(s.events, EpisodeResolution))
            && (!Unknown(targets, episodes) && Taken(targets, episodes) ==>
                  !s.proceed && HandsOff(s.events) && Refuses(s.events, OccupiedCheck))
            && (!Unknown(targets, episodes) && !Taken(targets, episodes) ==> s == Stage([], true))
  {
    TargetMeaning(targets, episodes);
  }

  lemma HardlinkComesFirst(cfg: Config, a: Answers, t: Texts, rest: seq<Event>)
    ensures GoesOn(Then(HardlinkStage(cfg, a, t), rest), cfg)
  {
  }

  /** An unguarded remap with a target that is not in the series, or occupied, only logs that and quarantines the
      job; any other goes on to preserve the file. */
  lemma RemapRefusesIff(targets: set<nat>, cfg: Config, file: File, a: Answers, log: seq<Entry>)
    requires !WasInterrupted(log) && targets != {}
    ensures var events := RunEvents(Remap(targets), cfg, file, a, log);
            && (Refuses(events, EpisodeResolution) <==> Unknown(targets, a.episodes))
            && (Refuses(events, OccupiedCheck) <==> !Unknown(targets, a.episodes) && Taken(targets, a.episodes))
            && (HandsOff(events) && !cfg.dry <==> (Unknown(targets, a.episodes) || Taken(targets, a.episodes)) && !cfg.dry)
            && (GoesOn(events, cfg) <==> !Unknown(targets, a.episodes) && !Taken(targets, a.episodes))
  {
    var resolved := Resolved(targets, a.episodes);
    var t := TextsFor(cfg, file, resolved, a);
    var rest := Then(RemapDeleteStage(cfg, a, t), RemapTail(cfg, StagedName(file, resolved), a, t));
    TargetStageMeaning(cfg, targets, a.episodes);
    HardlinkComesFirst(cfg, a, t, rest);
    var events := Then(TargetStage(cfg, targets, resolved), Then(HardlinkStage(cfg, a, t), rest));
    assert RunEvents(Remap(targets), cfg, file, a, log) == events;
    if !Unknown(targets, a.episodes) && !Taken(targets, a.episodes) {
      assert events == Then(HardlinkStage(cfg, a, t), rest);
    }
  }

  lemma RefusedAtOnce(targets: set<nat>, cfg: Config, file: File, a: Answers, log: seq<Entry>)
    requires !WasInterrupted(log) && targets != {} && (Unknown(targets, a.episodes) || Taken(targets, a.episodes))
    ensures RunEvents(Remap(targets), cfg, file, a, log) == TargetStage(cfg, targets, Resolved(targets, a.episodes)).events
    ensures HandsOff(RunEvents(Remap(targets), cfg, file, a, log))
  {
    var s := TargetStage(cfg, targets, Resolved(targets, a.episodes));
    TargetStageMeaning(cfg, targets, a.episodes);
    assert !s.proceed;
  }

  /** So no remap ever sends or copies anything for an occupied or unknown target, guarded or not. */
  lemma OccupiedIsLeftAlone(targets: set<nat>, cfg: Config, file: File, a: Answers, log: seq<Entry>)
    ensures Unknown(targets, a.episodes) || Taken(targets, a.episodes) ==>
              HandsOff(RunEvents(Remap(targets), cfg, file, a, log))
  {
    if WasInterrupted(log) {
      GuardIsQuiet(cfg);
    } else if targets != {} && (Unknown(targets, a.episodes) || Taken(targets, a.episodes)) {
      RefusedAtOnce(targets, cfg, file, a, log);
    }
  }
}
