/** `route` of `scoring.py`, from the plugins' raw results to a decision. */
module Routing {
  import opened Options
  import opened Candidates
  import opened Fusion
  import opened Aggregation
  import opened AggregationMeaning
  import opened Normalize

  datatype Thresholds = Thresholds(quarantine: real, auto: real, alt: real, altMargin: real, autoMinEvidence: int)

  datatype Flags = Flags(autoRemap: bool, autoReplace: bool, approvalRequired: bool)

  datatype Action = Remap(target: set<nat>) | Replace

  datatype Outcome = Matched | Quarantine | Inconclusive | Remediate

  datatype Decision = Decision(outcome: Outcome, action: Option<Action>, auto: bool)

  predicate AltAgrees(sheet: ScoreSheet) {
    && (sheet.sAlt.Some? <==> sheet.altKey.Some?)
    && sheet.altKind == match sheet.altKey case Some(k) => Some(KindOf(k)) case None => None
  }

  predicate Credible(sheet: ScoreSheet, t: Thresholds, claimedScore: real) {
    sheet.sAlt.Some? && sheet.sAlt.value >= t.alt && sheet.sAlt.value - claimedScore >= t.altMargin
  }

  function Route(sheet: ScoreSheet, t: Thresholds, flags: Flags): Decision
    requires AltAgrees(sheet)
  {
    match sheet.sClaimed
    case None => Decision(Inconclusive, None, false)
    case Some(claimed) =>
      if claimed >= t.quarantine then Decision(Matched, None, false)
      else if claimed >= t.auto then Decision(Quarantine, None, false)
      else
        var action :=
          if Credible(sheet, t, claimed) && sheet.altKind == Some(InSeriesKind) then Remap(sheet.altKey.value.ids) else Replace;
        var allowed := if action.Remap? then flags.autoRemap else flags.autoReplace;
        var auto := sheet.applicableCount >= t.autoMinEvidence && allowed && !flags.approvalRequired;
        Decision(if auto then Remediate else Quarantine, Some(action), auto)
  }

  // ----- from plugin results to a decision -----

  datatype PluginRun = PluginRun(name: string, weight: real, status: Status, candidates: seq<Candidate>)

  function NormalizedRun(run: PluginRun, episodes: seq<Episode>): PluginOutcome {
    PluginOutcome(run.name, run.weight, run.status,
                  seq(|run.candidates|, i requires 0 <= i < |run.candidates| =>
                    Scored(run.candidates[i].confidence, NormalForm(run.candidates[i].named, episodes))))
  }

  function Outcomes(runs: seq<PluginRun>, episodes: seq<Episode>): seq<PluginOutcome> {
    seq(|runs|, i requires 0 <= i < |runs| => NormalizedRun(runs[i], episodes))
  }

  function Decide(cfg: Config, l: Link, t: Thresholds, flags: Flags,
                  runs: seq<PluginRun>, episodes: seq<Episode>, claimedIds: set<nat>): Decision {
    Route(Sheet(cfg, l, Outcomes(runs, episodes), claimedIds), t, flags)
  }

  /** What the plugin contract's validators and the configuration promise of a run: confidences in
      [0, 1], weights not negative, and at least one number in each named candidate. */
  predicate Contracted(run: PluginRun) {
    && run.weight >= 0.0
    && forall c | c in run.candidates ::
         0.0 <= c.confidence <= 1.0 && (c.named.Something? ==> c.named.ident.episodes != [])
  }

  predicate AllContracted(runs: seq<PluginRun>) {
    forall run | run in runs :: Contracted(run)
  }

  ghost predicate Vouches(run: PluginRun, episodes: seq<Episode>, ids: set<nat>, atLeast: real) {
    run.status == Ok
    && exists c :: c in run.candidates && NormalForm(c.named, episodes) == InSeriesCandidate(ids) && c.confidence >= atLeast
  }

  /** Some ok plugin reported exactly this set of episodes with at least this confidence. */
  ghost predicate Vouched(runs: seq<PluginRun>, episodes: seq<Episode>, ids: set<nat>, atLeast: real) {
    exists run | run in runs :: Vouches(run, episodes, ids, atLeast)
  }

  // ----- automatic decisions -----

  /** A file is remediated without a human exactly when its claim scored below both thresholds on enough
      evidence, the action is switched on and approval is not required; and then there is an action. */
  lemma RemediatesIff(sheet: ScoreSheet, t: Thresholds, flags: Flags)
    requires AltAgrees(sheet)
    ensures var d := Route(sheet, t, flags);
            && d.auto == (d.outcome == Remediate)
            && (d.outcome == Remediate <==>
                  && d.action.Some?
                  && sheet.applicableCount >= t.autoMinEvidence
                  && !flags.approvalRequired
                  && (d.action.value.Remap? ==> flags.autoRemap) && (d.action.value.Replace? ==> flags.autoReplace))
            && (d.action.Some? <==> sheet.sClaimed.Some? && sheet.sClaimed.value < t.quarantine && sheet.sClaimed.value < t.auto)
  {
  }

  /** The outcomes without an action: inconclusive exactly if no plugin's result is ok, matched exactly if
      one is and the claim scores at least the quarantine threshold. */
  lemma SettledIff(cfg: Config, l: Link, rs: seq<PluginOutcome>, claimedIds: set<nat>, t: Thresholds, flags: Flags)
    ensures var d, claimed := Route(Sheet(cfg, l, rs, claimedIds), t, flags), InSeries(claimedIds);
            && (d.outcome == Inconclusive <==> forall o | o in rs :: o.status != Ok)
            && (d.outcome == Matched <==>
                  (exists o :: o in rs && o.status == Ok) && Score(cfg, l, Applicable(rs), claimed, claimed) >= t.quarantine)
            && (d.action.None? ==> !d.auto)
  {
    SheetScores(cfg, l, rs, claimedIds);
    NoneApplicable(rs);
    if Applicable(rs) != [] {
      SomeApplicable(rs);
    }
    SettledBy(Sheet(cfg, l, rs, claimedIds), t, flags);
  }

  lemma SettledBy(sheet: ScoreSheet, t: Thresholds, flags: Flags)
    requires AltAgrees(sheet)
    ensures var d := Route(sheet, t, flags);
            && (d.outcome == Inconclusive <==> sheet.sClaimed.None?)
            && (d.outcome == Matched <==> sheet.sClaimed.Some? && sheet.sClaimed.value >= t.quarantine)
            && (d.action.None? ==> !d.auto)
  {
  }

  lemma SomeApplicable(rs: seq<PluginOutcome>)
    requires Applicable(rs) != []
    ensures exists o :: o in rs && o.status == Ok
  {
    ApplicableMeaning(rs, Applicable(rs)[0]);
  }

  lemma NoneApplicable(rs: seq<PluginOutcome>)
    ensures Applicable(rs) == [] <==> forall o | o in rs :: o.status != Ok
  {
    if Applicable(rs) == [] {
      forall o | o in rs ensures o.status != Ok {
        ApplicableMeaning(rs, o);
      }
    } else {
      ApplicableMeaning(rs, Applicable(rs)[0]);
    }
  }

  /** The sheet's scores are those of its keys. */
  lemma SheetScores(cfg: Config, l: Link, rs: seq<PluginOutcome>, claimedIds: set<nat>)
    ensures var sheet, claimed := Sheet(cfg, l, rs, claimedIds), InSeries(claimedIds);
            && AltAgrees(sheet)
            && (sheet.sClaimed.Some? <==> Applicable(rs) != [])
            && (sheet.sClaimed.Some? ==> sheet.sClaimed.value == Score(cfg, l, Applicable(rs), claimed, claimed))
            && (sheet.altKey.Some? ==> sheet.sAlt.value == Score(cfg, l, Applicable(rs), claimed, sheet.altKey.value))
  {
  }

  lemma HighIsMatched(sheet: ScoreSheet, t: Thresholds, flags: Flags)
    requires AltAgrees(sheet) && sheet.sClaimed.Some?
    ensures Route(sheet, t, flags).outcome == Matched <==> sheet.sClaimed.value >= t.quarantine
  {
  }

  /** The instance flags decide who acts, never what is to be done: with all flags off or approval
      required the same action is proposed for review, and matched or inconclusive files stay so. */
  lemma FlagsOnlyGate(sheet: ScoreSheet, t: Thresholds, flags: Flags, flags': Flags)
    requires AltAgrees(sheet)
    ensures var d, d' := Route(sheet, t, flags), Route(sheet, t, flags');
            && d.action == d'.action
            && (d.outcome != d'.outcome ==> {d.outcome, d'.outcome} == {Remediate, Quarantine})
            && (flags'.approvalRequired ==> !d'.auto)
  {
  }
}
