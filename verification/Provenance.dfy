/** Where a remap target comes from: what a decision tells about the plugins' raw reports. */
module Provenance {
  import opened Options
  import opened Candidates
  import opened Fusion
  import opened Aggregation
  import opened AggregationMeaning
  import opened StableSort
  import opened Normalize
  import opened Routing

  lemma OutcomeOf(runs: seq<PluginRun>, episodes: seq<Episode>, o: PluginOutcome) returns (run: PluginRun)
    requires o in Outcomes(runs, episodes)
    ensures run in runs && o == NormalizedRun(run, episodes)
  {
    var i :| 0 <= i < |runs| && Outcomes(runs, episodes)[i] == o;
    run := runs[i];
  }

  lemma CandidateOf(run: PluginRun, episodes: seq<Episode>, s: Scored) returns (c: Candidate)
    requires s in NormalizedRun(run, episodes).scored
    ensures c in run.candidates && s == Scored(c.confidence, NormalForm(c.named, episodes))
  {
    var scored := NormalizedRun(run, episodes).scored;
    var i :| 0 <= i < |scored| && scored[i] == s;
    c := run.candidates[i];
  }

  predicate InUnit(c: real) {
    0.0 <= c <= 1.0
  }

  /** What an ok plugin puts into the pools is in range. */
  lemma OutcomeInRange(runs: seq<PluginRun>, episodes: seq<Episode>, o: PluginOutcome, key: Key)
    requires AllContracted(runs) && o in Applicable(Outcomes(runs, episodes))
    ensures o.weight >= 0.0 && InUnit(PluginScore(o, key))
  {
    ApplicableMeaning(Outcomes(runs, episodes), o);
    var run := OutcomeOf(runs, episodes, o);
    BestMeaning(o.scored, key);
    if s :| s in o.scored && Hits(s, key) && s.confidence == PluginScore(o, key) {
      var c := CandidateOf(run, episodes, s);
    }
  }

  /** Everything that reaches the pools is weighted and in range. */
  lemma PoolInRange(runs: seq<PluginRun>, episodes: seq<Episode>, claimed: Key, key: Key)
    requires AllContracted(runs)
    ensures var pool := Pool(Applicable(Outcomes(runs, episodes)), claimed, key);
            Weighted(pool) && forall i | 0 <= i < |pool| :: InUnit(pool[i].confidence)
  {
    var applicable := Applicable(Outcomes(runs, episodes));
    var pool, reporters := Pool(applicable, claimed, key), Reporters(applicable, claimed, key);
    PoolMeaning(applicable, claimed, key);
    ReportersMeaning(applicable, claimed, key);
    forall i | 0 <= i < |pool| ensures pool[i].weight >= 0.0 && InUnit(pool[i].confidence) {
      assert reporters[i] in reporters;
      OutcomeInRange(runs, episodes, reporters[i], key);
    }
  }

  lemma KeptFrom(cfg: Config, rs: seq<Report>)
    ensures forall r | r in Kept(cfg, rs) :: r in rs
    ensures Weighted(rs) ==> Weighted(Kept(cfg, rs))
  {
    HighLowMembers(cfg, rs);
    if Weighted(rs) {
      HighLowWeighted(cfg, rs);
    }
  }

  /** A positive score is carried by a report of at least that value. */
  lemma SomeReportCarries(cfg: Config, l: Link, rs: seq<Report>) returns (r: Report)
    requires IsLink(l) && GoodEps(cfg) && Weighted(rs) && Fuse(cfg, l, Kept(cfg, rs)) > 0.0
    ensures r in rs && Value(cfg, r.confidence) >= Fuse(cfg, l, Kept(cfg, rs))
  {
    KeptFrom(cfg, rs);
    var kept := Kept(cfg, rs);
    var least, greatest := FuseIsBetweenReports(cfg, l, kept);
    r := kept[greatest];
    assert r in kept;
  }

  /** A plugin's score on a key it reported is that of one of its own candidates. */
  lemma ScoreIsOwn(runs: seq<PluginRun>, episodes: seq<Episode>, ids: set<nat>, o: PluginOutcome)
    requires o in Applicable(Outcomes(runs, episodes)) && Reported(o, InSeries(ids))
    ensures Vouched(runs, episodes, ids, PluginScore(o, InSeries(ids)))
  {
    var key := InSeries(ids);
    ApplicableMeaning(Outcomes(runs, episodes), o);
    PluginReportsMeaning(o, key, key);
    var run := OutcomeOf(runs, episodes, o);
    var s :| s in o.scored && Hits(s, key) && s.confidence == PluginScore(o, key);
    var c := CandidateOf(run, episodes, s);
    assert Vouches(run, episodes, ids, PluginScore(o, key));
  }

  /** An alternate's report is some plugin's own candidate. */
  lemma ReportIsOwn(runs: seq<PluginRun>, episodes: seq<Episode>, claimed: Key, ids: set<nat>, r: Report)
    requires InSeries(ids) != claimed && r in Pool(Applicable(Outcomes(runs, episodes)), claimed, InSeries(ids))
    ensures Vouched(runs, episodes, ids, r.confidence)
  {
    var applicable, key := Applicable(Outcomes(runs, episodes)), InSeries(ids);
    PoolMeaning(applicable, claimed, key);
    ReportersMeaning(applicable, claimed, key);
    var i :| 0 <= i < |Pool(applicable, claimed, key)| && Pool(applicable, claimed, key)[i] == r;
    var o := Reporters(applicable, claimed, key)[i];
    assert o in Reporters(applicable, claimed, key);
    ScoreIsOwn(runs, episodes, ids, o);
  }

  lemma VouchedLess(runs: seq<PluginRun>, episodes: seq<Episode>, ids: set<nat>, a: real, b: real)
    requires Vouched(runs, episodes, ids, a) && b <= a
    ensures Vouched(runs, episodes, ids, b)
  {
    var run :| run in runs && Vouches(run, episodes, ids, a);
    assert Vouches(run, episodes, ids, b);
  }

  /** The alternate is another key that some applicable plugin reported. */
  lemma AlternateIsReported(cfg: Config, l: Link, rs: seq<PluginOutcome>, claimedIds: set<nat>)
    ensures var alt := Sheet(cfg, l, rs, claimedIds).altKey;
            alt.Some? ==> alt.value != InSeries(claimedIds) && exists o :: o in Applicable(rs) && Reported(o, alt.value)
  {
    var claimed, applicable := InSeries(claimedIds), Applicable(rs);
    var keys, score := KeyOrder(applicable, claimed), Scorer(cfg, l, applicable, claimed);
    var others := Others(keys, claimed);
    var alt := Sheet(cfg, l, rs, claimedIds).altKey;
    if alt.Some? {
      SortKeeps(ReprLess, others);
      SortHas(ReprLess, others);
      FirstMaxIsIn(SortKeys(others), score);
      KeyOrderDistinct(applicable, claimed);
      OthersMeaning(keys, claimed);
      KeyOrderMeaning(applicable, claimed, alt.value);
    }
  }

  lemma {:induction false} FirstMaxIsIn(keys: seq<Key>, score: Key -> real)
    requires keys != []
    ensures FirstMax(keys, score) in keys
    decreases |keys|
  {
    if |keys| > 1 {
      FirstMaxIsIn(keys[..|keys| - 1], score);
    }
  }

  /** A remap goes to the alternate, which then passed the thresholds. */
  lemma RemapIsAlternate(sheet: ScoreSheet, t: Thresholds, flags: Flags, target: set<nat>)
    requires AltAgrees(sheet) && Route(sheet, t, flags).action == Some(Remap(target))
    ensures sheet.altKey == Some(InSeries(target)) && sheet.sAlt.Some? && sheet.sClaimed.Some?
    ensures Credible(sheet, t, sheet.sClaimed.value) && sheet.sClaimed.value < t.auto && sheet.sClaimed.value < t.quarantine
  {
  }

  lemma KeyIsReal(runs: seq<PluginRun>, episodes: seq<Episode>, ids: set<nat>, o: PluginOutcome)
    requires AllContracted(runs) && o in Applicable(Outcomes(runs, episodes)) && Reported(o, InSeries(ids))
    ensures ids != {} && (forall id | id in ids :: exists e :: e in episodes && e.id == id)
    ensures Vouched(runs, episodes, ids, 0.0)
  {
    ApplicableMeaning(Outcomes(runs, episodes), o);
    var run := OutcomeOf(runs, episodes, o);
    var s :| s in o.scored && Hits(s, InSeries(ids));
    var c := CandidateOf(run, episodes, s);
    NormalFormIsListed(c.named, episodes);
    assert Vouches(run, episodes, ids, 0.0);
  }

  /** A remap target is never empty, never the claimed set, and made of the series' own episodes. */
  lemma RemapTargetIsReal(cfg: Config, l: Link, t: Thresholds, flags: Flags,
                          runs: seq<PluginRun>, episodes: seq<Episode>, claimedIds: set<nat>, target: set<nat>)
    requires AllContracted(runs)
    ensures Decide(cfg, l, t, flags, runs, episodes, claimedIds).action == Some(Remap(target)) ==>
              && target != {} && target != claimedIds
              && (forall id | id in target :: exists e :: e in episodes && e.id == id)
              && Vouched(runs, episodes, target, 0.0)
  {
    if Decide(cfg, l, t, flags, runs, episodes, claimedIds).action == Some(Remap(target)) {
      var rs := Outcomes(runs, episodes);
      RemapIsAlternate(Sheet(cfg, l, rs, claimedIds), t, flags, target);
      AlternateIsReported(cfg, l, rs, claimedIds);
      var o :| o in Applicable(rs) && Reported(o, InSeries(target));
      KeyIsReal(runs, episodes, target, o);
    }
  }

  /** Some plugin vouches for an alternate at the score it got, as long as that score is not just the
      clamping floor of log-odds pooling. */
  lemma ScoreIsVouched(cfg: Config, l: Link, runs: seq<PluginRun>, episodes: seq<Episode>, claimed: Key, ids: set<nat>, score: real)
    requires IsLink(l) && GoodEps(cfg) && AllContracted(runs) && InSeries(ids) != claimed
    requires score == Score(cfg, l, Applicable(Outcomes(runs, episodes)), claimed, InSeries(ids))
    requires score > 0.0 && (cfg.fusion == LogOdds ==> score > cfg.eps)
    ensures Vouched(runs, episodes, ids, score)
  {
    var pool := Pool(Applicable(Outcomes(runs, episodes)), claimed, InSeries(ids));
    assert Weighted(pool) by {
      PoolInRange(runs, episodes, claimed, InSeries(ids));
    }
    var r := SomeReportCarries(cfg, l, pool);
    assert Vouched(runs, episodes, ids, r.confidence) by {
      ReportIsOwn(runs, episodes, claimed, ids, r);
    }
    VouchedLess(runs, episodes, ids, r.confidence, score);
  }

  /** The configurations in which the clamping floor can pass for a vouched alternate. */
  predicate FloorPasses(cfg: Config, t: Thresholds) {
    cfg.fusion == LogOdds && 0.0 < t.alt <= cfg.eps && t.altMargin <= 0.0 && cfg.eps < t.auto && cfg.eps < t.quarantine
  }

  /** With plugins of weight 0 there are more: they can have every weighted report on the claim rejected,
      so that the claim scores 0 and the floor clears a margin. */
  predicate WeightlessFloorPasses(cfg: Config, t: Thresholds) {
    && cfg.fusion == LogOdds && 0.0 < t.alt <= cfg.eps && t.altMargin <= cfg.eps && 0.0 < t.auto && 0.0 < t.quarantine
    && CanSilence(cfg)
  }

  /** Rejection can leave out a report of confidence 0. */
  predicate CanSilence(cfg: Config) {
    cfg.outlierRejection && 0.0 < cfg.outlierHigh <= 1.0 && cfg.outlierLow >= 0.0
  }

  predicate AllWeighted(runs: seq<PluginRun>) {
    forall run | run in runs :: run.weight > 0.0
  }

  lemma {:induction false} SumOfPositive(rs: seq<Report>)
    requires rs != [] && forall i | 0 <= i < |rs| :: rs[i].weight > 0.0
    ensures SumW(rs) > 0.0
    decreases |rs|
  {
    if |rs| > 1 {
      SumOfPositive(rs[..|rs| - 1]);
    } else {
      assert SumW(rs[..0]) == 0.0;
    }
  }

  lemma PoolIsWeighted(runs: seq<PluginRun>, episodes: seq<Episode>, claimed: Key, key: Key)
    requires AllWeighted(runs)
    ensures forall r | r in Pool(Applicable(Outcomes(runs, episodes)), claimed, key) :: r.weight > 0.0
  {
    var applicable := Applicable(Outcomes(runs, episodes));
    var pool, reporters := Pool(applicable, claimed, key), Reporters(applicable, claimed, key);
    PoolMeaning(applicable, claimed, key);
    ReportersMeaning(applicable, claimed, key);
    forall r | r in pool ensures r.weight > 0.0 {
      var i :| 0 <= i < |pool| && pool[i] == r;
      var o := reporters[i];
      assert o in reporters;
      ApplicableMeaning(Outcomes(runs, episodes), o);
      var run := OutcomeOf(runs, episodes, o);
    }
  }

  /** When every plugin carries weight, log-odds pooling scores no key below the floor. */
  lemma ScoreAboveFloor(cfg: Config, l: Link, runs: seq<PluginRun>, episodes: seq<Episode>, claimed: Key, key: Key)
    requires IsLink(l) && GoodEps(cfg) && cfg.fusion == LogOdds && cfg.minAgreeing >= 1
    requires AllWeighted(runs) && Pool(Applicable(Outcomes(runs, episodes)), claimed, key) != []
    ensures Score(cfg, l, Applicable(Outcomes(runs, episodes)), claimed, key) >= cfg.eps
  {
    var pool := Pool(Applicable(Outcomes(runs, episodes)), claimed, key);
    var kept := Kept(cfg, pool);
    PoolIsWeighted(runs, episodes, claimed, key);
    KeptFrom(cfg, pool);
    assert kept != [];
    forall i | 0 <= i < |kept| ensures kept[i].weight > 0.0 {
      assert kept[i] in kept;
    }
    SumOfPositive(kept);
    var least, greatest := FuseIsBetweenReports(cfg, l, kept);
    ClampMono(kept[least].confidence, kept[least].confidence, cfg.eps);
  }

  /** A weighted pool in range scores at least the floor, unless rejection silences all of its weight. */
  lemma FloorOrSilenced(cfg: Config, l: Link, pool: seq<Report>)
    requires IsLink(l) && GoodEps(cfg) && cfg.fusion == LogOdds && cfg.minAgreeing >= 1
    requires Weighted(pool) && SumW(pool) > 0.0 && forall i | 0 <= i < |pool| :: InUnit(pool[i].confidence)
    ensures var score := Fuse(cfg, l, Kept(cfg, pool));
            score >= cfg.eps || (score == 0.0 && CanSilence(cfg))
  {
    var kept := Kept(cfg, pool);
    KeptFrom(cfg, pool);
    if SumW(kept) > 0.0 {
      var least, greatest := FuseIsBetweenReports(cfg, l, kept);
      ClampMono(kept[least].confidence, kept[least].confidence, cfg.eps);
    } else {
      assert Rejects(cfg, pool);
      HighLowMembers(cfg, pool);
      assert High(cfg, pool)[0] in High(cfg, pool) && Low(cfg, pool)[0] in Low(cfg, pool);
    }
  }

  /** What a pool keeps weighs no more than the pool, and a positive score needs weight. */
  lemma PositiveScoreHasWeight(cfg: Config, l: Link, pool: seq<Report>)
    requires Weighted(pool) && Fuse(cfg, l, Kept(cfg, pool)) > 0.0
    ensures SumW(pool) > 0.0
  {
    HighLowSums(cfg, WeightOf, pool);
    HighLowWeighted(cfg, pool);
    SumOfNonNegative(Low(cfg, pool));
  }

  /** Every ok plugin is in the claimed key's pool, so no pool weighs more. */
  lemma {:induction false} ClaimedPoolWeighsMost(applicable: seq<PluginOutcome>, claimed: Key, key: Key)
    requires forall o | o in applicable :: o.weight >= 0.0
    ensures SumW(Pool(applicable, claimed, key)) <= SumW(Pool(applicable, claimed, claimed))
    decreases |applicable|
  {
    if applicable != [] {
      var init, last := applicable[..|applicable| - 1], applicable[|applicable| - 1];
      assert applicable == init + [last];
      ClaimedPoolWeighsMost(init, claimed, key);
      PluginReportsMeaning(last, claimed, key);
      PluginReportsMeaning(last, claimed, claimed);
      SumOfSnoc(WeightOf, Pool(init, claimed, claimed), ReportOf(last, claimed));
      SumOfSnoc(WeightOf, Pool(init, claimed, key), ReportOf(last, key));
      assert Pool(init, claimed, key) + [] == Pool(init, claimed, key);
    }
  }

  /** If some key scores above 0, the claim scores at least the floor or is silenced. */
  lemma ClaimFloorOrSilenced(cfg: Config, l: Link, runs: seq<PluginRun>, episodes: seq<Episode>, claimed: Key, key: Key)
    requires IsLink(l) && GoodEps(cfg) && cfg.fusion == LogOdds && cfg.minAgreeing >= 1 && AllContracted(runs)
    ensures var applicable := Applicable(Outcomes(runs, episodes));
            var score := Score(cfg, l, applicable, claimed, claimed);
            Score(cfg, l, applicable, claimed, key) > 0.0 ==> score >= cfg.eps || (score == 0.0 && CanSilence(cfg))
  {
    var applicable := Applicable(Outcomes(runs, episodes));
    PoolInRange(runs, episodes, claimed, claimed);
    PoolInRange(runs, episodes, claimed, key);
    if Score(cfg, l, applicable, claimed, key) > 0.0 {
      PositiveScoreHasWeight(cfg, l, Pool(applicable, claimed, key));
      forall o | o in applicable ensures o.weight >= 0.0 {
        OutcomeInRange(runs, episodes, o, key);
      }
      ClaimedPoolWeighsMost(applicable, claimed, key);
      FloorOrSilenced(cfg, l, Pool(applicable, claimed, claimed));
    }
  }

  /** Remap provenance: unless the floor passes for evidence, whenever the pipeline decides on a remap,
      some ok plugin reported exactly that set of episodes with at least the alternate threshold. */
  lemma RemapProvenance(cfg: Config, l: Link, t: Thresholds, flags: Flags,
                        runs: seq<PluginRun>, episodes: seq<Episode>, claimedIds: set<nat>, target: set<nat>)
    requires IsLink(l) && GoodEps(cfg) && cfg.minAgreeing >= 1 && AllContracted(runs)
    requires !FloorPasses(cfg, t) && (AllWeighted(runs) || !WeightlessFloorPasses(cfg, t))
    ensures Decide(cfg, l, t, flags, runs, episodes, claimedIds).action == Some(Remap(target)) ==>
              Vouched(runs, episodes, target, t.alt)
  {
    if Decide(cfg, l, t, flags, runs, episodes, claimedIds).action == Some(Remap(target)) {
      var rs := Outcomes(runs, episodes);
      var sheet := Sheet(cfg, l, rs, claimedIds);
      RemapTargetIsReal(cfg, l, t, flags, runs, episodes, claimedIds, target);
      RemapIsAlternate(sheet, t, flags, target);
      SheetScores(cfg, l, rs, claimedIds);
      CredibleIsVouched(cfg, l, t, runs, episodes, claimedIds, target, sheet.sAlt.value, sheet.sClaimed.value);
    }
  }

  lemma CredibleIsVouched(cfg: Config, l: Link, t: Thresholds, runs: seq<PluginRun>, episodes: seq<Episode>,
                          claimedIds: set<nat>, target: set<nat>, alt: real, claimedScore: real)
    requires IsLink(l) && GoodEps(cfg) && cfg.minAgreeing >= 1 && AllContracted(runs)
    requires !FloorPasses(cfg, t) && (AllWeighted(runs) || !WeightlessFloorPasses(cfg, t))
    requires target != claimedIds && Applicable(Outcomes(runs, episodes)) != []
    requires alt == Score(cfg, l, Applicable(Outcomes(runs, episodes)), InSeries(claimedIds), InSeries(target))
    requires claimedScore == Score(cfg, l, Applicable(Outcomes(runs, episodes)), InSeries(claimedIds), InSeries(claimedIds))
    requires alt >= t.alt && alt - claimedScore >= t.altMargin && claimedScore < t.auto && claimedScore < t.quarantine
    requires Vouched(runs, episodes, target, 0.0)
    ensures Vouched(runs, episodes, target, t.alt)
  {
    if t.alt <= 0.0 {
      VouchedLess(runs, episodes, target, 0.0, t.alt);
    } else {
      if cfg.fusion == LogOdds && t.alt <= cfg.eps {
        if AllWeighted(runs) {
          ClaimedPoolFull(Applicable(Outcomes(runs, episodes)), InSeries(claimedIds));
          ScoreAboveFloor(cfg, l, runs, episodes, InSeries(claimedIds), InSeries(claimedIds));
        } else {
          ClaimFloorOrSilenced(cfg, l, runs, episodes, InSeries(claimedIds), InSeries(target));
        }
      }
      ScoreIsVouched(cfg, l, runs, episodes, InSeries(claimedIds), target, alt);
      VouchedLess(runs, episodes, target, alt, t.alt);
    }
  }

  lemma ClaimedPoolFull(applicable: seq<PluginOutcome>, claimed: Key)
    ensures |Pool(applicable, claimed, claimed)| == |applicable|
  {
    PoolMeaning(applicable, claimed, claimed);
    ReportersMeaning(applicable, claimed, claimed);
  }

  /** A plugin that found only the second episode, at confidence 0. */
  const DOUBTFUL_CANDIDATE: Candidate := Candidate(0.0, Something(Ident(ClaimedSeries, 1, [2]), Tvdb))
  const DOUBTFUL_RUN: PluginRun := PluginRun("a", 1.0, Ok, [DOUBTFUL_CANDIDATE])
  const TWO_EPISODES: seq<Episode> := [Episode(1, 1, 1, None, None, None, None), Episode(2, 1, 2, None, None, None, None)]

  lemma DoubtfulForm()
    ensures NormalForm(DOUBTFUL_CANDIDATE.named, TWO_EPISODES) == InSeriesCandidate({2})
  {
    assert FirstAt(TWO_EPISODES, e => ByNumber(e, 1, 2), 1);
    FirstFound(TWO_EPISODES, e => ByNumber(e, 1, 2), 1);
    assert [2][..0] == [];
    assert ResolveAll(Tvdb, TWO_EPISODES, 1, []) == Some({});
  }

  lemma DoubtfulNormalized()
    ensures NormalizedRun(DOUBTFUL_RUN, TWO_EPISODES) == DOUBTFUL_OUTCOME
  {
    DoubtfulForm();
    var scored := NormalizedRun(DOUBTFUL_RUN, TWO_EPISODES).scored;
    assert |scored| == 1 && scored[0] == Scored(0.0, InSeriesCandidate({2}));
  }

  lemma DoubtfulKeys()
    ensures Outcomes([DOUBTFUL_RUN], TWO_EPISODES) == [DOUBTFUL_OUTCOME]
  {
    DoubtfulNormalized();
    assert |Outcomes([DOUBTFUL_RUN], TWO_EPISODES)| == 1;
  }

  const DOUBTFUL_OUTCOME: PluginOutcome := PluginOutcome("a", 1.0, Ok, [Scored(0.0, InSeriesCandidate({2}))])

  lemma DoubtfulReports(o: PluginOutcome, claimed: Key, other: Key)
    requires o == DOUBTFUL_OUTCOME && claimed == InSeries({1}) && other == InSeries({2})
    ensures PluginKeys(o, claimed) == [other, claimed]
    ensures PluginScore(o, claimed) == PluginScore(o, other) == 0.0
  {
    var s := o.scored[0];
    assert o.scored == [s] && [s][..0] == [];
    assert 1 !in other.ids;
    assert KeysIn([]) == [] && KeysIn([s]) == [other];
    assert Best([], claimed) == None && Best([], other) == None;
    assert Best([s], claimed) == None && Best([s], other) == Some(0.0);
  }

  lemma OnlyPool(o: PluginOutcome, claimed: Key, other: Key)
    requires o.status == Ok && PluginKeys(o, claimed) == [other, claimed] && claimed != other
    ensures Applicable([o]) == [o] && KeyOrder([o], claimed) == [other, claimed]
    ensures forall k | k == claimed || k == other :: Pool([o], claimed, k) == [Report(o.name, o.weight, PluginScore(o, k))]
  {
    assert [o][..0] == [];
    assert Applicable([]) == [] && KeyOrder([], claimed) == [];
    TwoKeys(other, claimed);
    forall k | k == claimed || k == other
      ensures Pool([o], claimed, k) == [Report(o.name, o.weight, PluginScore(o, k))]
    {
      assert Pool([], claimed, k) == [];
      assert k in PluginKeys(o, claimed);
    }
  }

  lemma SingleSheet(cfg: Config, l: Link, o: PluginOutcome, claimed: Key, other: Key)
    requires o == DOUBTFUL_OUTCOME && claimed == InSeries({1}) && other == InSeries({2})
    requires GoodEps(cfg) && cfg.fusion == LogOdds && cfg.minAgreeing >= 1
    ensures var sheet := Sheet(cfg, l, [o], {1});
            sheet.sClaimed == Some(cfg.eps) && sheet.sAlt == Some(cfg.eps) && sheet.altKey == Some(other)
  {
    assert 1 !in other.ids;
    DoubtfulReports(o, claimed, other);
    OnlyPool(o, claimed, other);
    SingleReport(cfg, l, Report("a", 1.0, 0.0));
    OnlyOther(other, claimed, Scorer(cfg, l, [o], claimed));
  }

  /** Nobody believes in the second episode. */
  lemma DoubtfulIsNotVouched(run: PluginRun, atLeast: real)
    requires run == DOUBTFUL_RUN && atLeast > 0.0
    ensures Contracted(run) && run.weight > 0.0
    ensures !Vouched([run], TWO_EPISODES, {2}, atLeast)
  {
    assert run.candidates == [DOUBTFUL_CANDIDATE];
    assert !Vouches(run, TWO_EPISODES, {2}, atLeast);
  }

  lemma DoubtfulIsRemapped(cfg: Config, l: Link, t: Thresholds, flags: Flags, rs: seq<PluginOutcome>)
    requires GoodEps(cfg) && cfg.minAgreeing >= 1 && FloorPasses(cfg, t) && rs == [DOUBTFUL_OUTCOME]
    ensures Route(Sheet(cfg, l, rs, {1}), t, flags).action == Some(Remap({2}))
  {
    SingleSheet(cfg, l, DOUBTFUL_OUTCOME, InSeries({1}), InSeries({2}));
    ImpliesRemap(cfg, t, flags, Sheet(cfg, l, rs, {1}));
  }

  /** A floor that passes makes a remap of a candidate nobody believes in. */
  lemma FloorRemaps(cfg: Config, l: Link, t: Thresholds, flags: Flags) returns (runs: seq<PluginRun>, episodes: seq<Episode>)
    requires GoodEps(cfg) && cfg.minAgreeing >= 1 && FloorPasses(cfg, t)
    ensures Decide(cfg, l, t, flags, runs, episodes, {1}).action == Some(Remap({2}))
    ensures !Vouched(runs, episodes, {2}, t.alt)
    ensures AllContracted(runs) && AllWeighted(runs)
  {
    var run := DOUBTFUL_RUN;
    runs, episodes := [run], TWO_EPISODES;
    assert Contracted(run) && run.weight > 0.0 && !Vouched(runs, episodes, {2}, t.alt) by {
      DoubtfulIsNotVouched(run, t.alt);
    }
    assert Decide(cfg, l, t, flags, runs, episodes, {1}).action == Some(Remap({2})) by {
      DoubtfulKeys();
      DoubtfulIsRemapped(cfg, l, t, flags, Outcomes(runs, episodes));
    }
  }

  lemma ImpliesRemap(cfg: Config, t: Thresholds, flags: Flags, sheet: ScoreSheet)
    requires FloorPasses(cfg, t) && AltAgrees(sheet)
    requires sheet.sClaimed == Some(cfg.eps) && sheet.sAlt == Some(cfg.eps) && sheet.altKey == Some(InSeries({2}))
    ensures Route(sheet, t, flags).action == Some(Remap({2}))
  {
  }

  lemma SingleReport(cfg: Config, l: Link, r: Report)
    requires GoodEps(cfg) && cfg.fusion == LogOdds && cfg.minAgreeing >= 1 && r.weight > 0.0 && r.confidence == 0.0
    ensures Fuse(cfg, l, Kept(cfg, [r])) == cfg.eps
  {
    assert [r][..0] == [] && High(cfg, []) == [] && Low(cfg, []) == [];
    assert SumW([]) == 0.0;
    assert Kept(cfg, [r]) == [r];
    assert SumW([r]) == r.weight;
  }

  lemma TwoKeys(a: Key, b: Key)
    requires a != b
    ensures AddKeys([], [a, b]) == [a, b]
  {
    assert [a, b][..1] == [a] && [a][..0] == [];
    assert AddKeys([], []) == [];
    assert AddKeys([], [a]) == [a];
  }

  lemma OnlyOther(a: Key, claimed: Key, score: Key -> real)
    requires a != claimed
    ensures Alternate([a, claimed], claimed, score) == Some(a)
  {
    assert [a, claimed][..1] == [a] && [a][..0] == [] && Others([], claimed) == [];
    assert Others([a], claimed) == [a];
    assert Others([a, claimed], claimed) == [a];
    SortOne(ReprLess, a);
  }

  // ----- a remap nobody vouches for, by way of weightless plugins -----

  /** A weightless plugin that is certain of the claim. */
  const CERTAIN_CANDIDATE: Candidate := Candidate(1.0, Something(Ident(ClaimedSeries, 1, [1]), Tvdb))
  const CERTAIN_RUN: PluginRun := PluginRun("z", 0.0, Ok, [CERTAIN_CANDIDATE])
  const CERTAIN_OUTCOME: PluginOutcome := PluginOutcome("z", 0.0, Ok, [Scored(1.0, InSeriesCandidate({1}))])

  lemma CertainForm()
    ensures NormalForm(CERTAIN_CANDIDATE.named, TWO_EPISODES) == InSeriesCandidate({1})
  {
    assert FirstAt(TWO_EPISODES, e => ByNumber(e, 1, 1), 0);
    FirstFound(TWO_EPISODES, e => ByNumber(e, 1, 1), 0);
    assert [1][..0] == [];
    assert ResolveAll(Tvdb, TWO_EPISODES, 1, []) == Some({});
  }

  lemma CertainNormalized()
    ensures NormalizedRun(CERTAIN_RUN, TWO_EPISODES) == CERTAIN_OUTCOME
  {
    CertainForm();
    var scored := NormalizedRun(CERTAIN_RUN, TWO_EPISODES).scored;
    assert |scored| == 1 && scored[0] == Scored(1.0, InSeriesCandidate({1}));
  }

  lemma SilencingOutcomes(m: nat)
    ensures Outcomes(Copies(CERTAIN_RUN, m) + [DOUBTFUL_RUN], TWO_EPISODES) == Copies(CERTAIN_OUTCOME, m) + [DOUBTFUL_OUTCOME]
  {
    var runs, rs := Copies(CERTAIN_RUN, m) + [DOUBTFUL_RUN], Copies(CERTAIN_OUTCOME, m) + [DOUBTFUL_OUTCOME];
    CertainNormalized();
    DoubtfulNormalized();
    CopiesAre(CERTAIN_RUN, m);
    CopiesAre(CERTAIN_OUTCOME, m);
    forall i | 0 <= i < |runs| ensures Outcomes(runs, TWO_EPISODES)[i] == rs[i] {
      assert runs[i] == if i < m then CERTAIN_RUN else DOUBTFUL_RUN;
    }
  }

  lemma CertainReports(o: PluginOutcome, claimed: Key, other: Key)
    requires o == CERTAIN_OUTCOME && claimed == InSeries({1}) && other == InSeries({2})
    ensures PluginKeys(o, claimed) == [claimed] && PluginScore(o, claimed) == 1.0
  {
    var s := o.scored[0];
    assert o.scored == [s] && [s][..0] == [];
    assert KeysIn([]) == [] && KeysIn([s]) == [claimed];
    assert Best([], claimed) == None && Best([s], claimed) == Some(1.0);
  }

  lemma {:induction false} AllApplicable(rs: seq<PluginOutcome>)
    requires forall o | o in rs :: o.status == Ok
    ensures Applicable(rs) == rs
    decreases |rs|
  {
    if rs != [] {
      var init := rs[..|rs| - 1];
      assert rs == init + [rs[|rs| - 1]] && forall o | o in init :: o in rs;
      AllApplicable(init);
    }
  }

  lemma CertainPlugin(o: PluginOutcome, claimed: Key, other: Key)
    requires PluginKeys(o, claimed) == [claimed] && claimed != other
    ensures PluginReports(o, claimed, claimed) == [Report(o.name, o.weight, PluginScore(o, claimed))]
    ensures PluginReports(o, claimed, other) == []
  {
  }

  /** The pools of m plugins that report only the claim. */
  lemma {:induction false} CertainPools(o: PluginOutcome, m: nat, claimed: Key, other: Key)
    requires PluginKeys(o, claimed) == [claimed] && claimed != other
    ensures Pool(Copies(o, m), claimed, claimed) == Copies(Report(o.name, o.weight, PluginScore(o, claimed)), m)
    ensures Pool(Copies(o, m), claimed, other) == []
  {
    if m > 0 {
      CertainPools(o, m - 1, claimed, other);
      CertainPlugin(o, claimed, other);
      assert Copies(o, m)[..m - 1] == Copies(o, m - 1);
    }
  }

  lemma {:induction false} CertainKeys(o: PluginOutcome, m: nat, claimed: Key)
    requires PluginKeys(o, claimed) == [claimed]
    ensures KeyOrder(Copies(o, m), claimed) == if m == 0 then [] else [claimed]
  {
    if m > 0 {
      CertainKeys(o, m - 1, claimed);
      assert Copies(o, m)[..m - 1] == Copies(o, m - 1);
      AddedClaim(KeyOrder(Copies(o, m - 1), claimed), claimed);
    }
  }

  lemma AddedClaim(keys: seq<Key>, claimed: Key)
    ensures AddKeys(keys, [claimed]) == AddKey(keys, Some(claimed))
  {
    assert [claimed][..0] == [] && AddKeys(keys, []) == keys;
  }

  lemma SilencingPools(rs: seq<PluginOutcome>, m: nat, claimed: Key, other: Key)
    requires m >= 1 && rs == Copies(CERTAIN_OUTCOME, m) + [DOUBTFUL_OUTCOME]
    requires claimed == InSeries({1}) && other == InSeries({2})
    ensures Applicable(rs) == rs && KeyOrder(rs, claimed) == [claimed, other]
    ensures Pool(rs, claimed, claimed) == Copies(Report("z", 0.0, 1.0), m) + [Report("a", 1.0, 0.0)]
    ensures Pool(rs, claimed, other) == [Report("a", 1.0, 0.0)]
  {
    var zs, o := Copies(CERTAIN_OUTCOME, m), DOUBTFUL_OUTCOME;
    assert 1 !in other.ids;
    CopiesAre(CERTAIN_OUTCOME, m);
    AllApplicable(rs);
    CertainReports(CERTAIN_OUTCOME, claimed, other);
    DoubtfulReports(o, claimed, other);
    CertainPools(CERTAIN_OUTCOME, m, claimed, other);
    CertainKeys(CERTAIN_OUTCOME, m, claimed);
    OneMorePlugin(zs, o, claimed, other);
  }

  lemma OneMorePlugin(zs: seq<PluginOutcome>, o: PluginOutcome, claimed: Key, other: Key)
    requires KeyOrder(zs, claimed) == [claimed] && PluginKeys(o, claimed) == [other, claimed] && claimed != other
    ensures KeyOrder(zs + [o], claimed) == [claimed, other]
    ensures forall k | k == claimed || k == other ::
              Pool(zs + [o], claimed, k) == Pool(zs, claimed, k) + [Report(o.name, o.weight, PluginScore(o, k))]
  {
    assert (zs + [o])[..|zs|] == zs;
    AddedOther(claimed, other);
  }

  lemma AddedOther(claimed: Key, other: Key)
    requires claimed != other
    ensures AddKeys([claimed], [other, claimed]) == [claimed, other]
  {
    assert [other, claimed][..1] == [other] && [other][..0] == [];
    assert AddKeys([claimed], []) == [claimed] && AddKeys([claimed], [other]) == [claimed, other];
  }

  /** Kept are only the weightless reports, and they score 0. */
  lemma SilencedScore(cfg: Config, l: Link, m: nat)
    requires CanSilence(cfg) && m == cfg.minAgreeing >= 1
    ensures Fuse(cfg, l, Kept(cfg, Copies(Report("z", 0.0, 1.0), m) + [Report("a", 1.0, 0.0)])) == 0.0
  {
    var z, r := Report("z", 0.0, 1.0), Report("a", 1.0, 0.0);
    SilencedBy(cfg, Copies(z, m), z, r, m);
  }

  lemma SilencedBy(cfg: Config, zs: seq<Report>, z: Report, r: Report, m: nat)
    requires CanSilence(cfg) && m == cfg.minAgreeing && zs == Copies(z, m)
    requires z.weight == 0.0 && z.confidence == 1.0 && r.confidence == 0.0
    ensures Kept(cfg, zs + [r]) == zs && SumW(zs) == 0.0
  {
    HighOfCopies(cfg, z, m);
    LowOfCopies(cfg, z, m);
    HighLowSnoc(cfg, zs, r);
    assert Low(cfg, zs + [r]) == [r] && High(cfg, zs + [r]) == zs;
    SumWOfCopies(z, m);
  }

  lemma SilencingSheet(cfg: Config, l: Link, rs: seq<PluginOutcome>, m: nat, claimed: Key, other: Key)
    requires rs == Copies(CERTAIN_OUTCOME, m) + [DOUBTFUL_OUTCOME] && m == cfg.minAgreeing >= 1
    requires claimed == InSeries({1}) && other == InSeries({2})
    requires CanSilence(cfg) && GoodEps(cfg) && cfg.fusion == LogOdds
    ensures var sheet := Sheet(cfg, l, rs, {1});
            sheet.sClaimed == Some(0.0) && sheet.sAlt == Some(cfg.eps) && sheet.altKey == Some(other)
  {
    assert 1 !in other.ids;
    SilencingPools(rs, m, claimed, other);
    SilencedScore(cfg, l, m);
    SingleReport(cfg, l, Report("a", 1.0, 0.0));
    OtherLast(other, claimed, Scorer(cfg, l, rs, claimed));
  }

  lemma OtherLast(a: Key, claimed: Key, score: Key -> real)
    requires a != claimed
    ensures Alternate([claimed, a], claimed, score) == Some(a)
  {
    assert [claimed, a][..1] == [claimed] && [claimed][..0] == [] && Others([], claimed) == [];
    assert Others([claimed], claimed) == [] && Others([claimed, a], claimed) == [a];
    SortOne(ReprLess, a);
  }

  lemma SilencedRemaps(sheet: ScoreSheet, cfg: Config, t: Thresholds, flags: Flags)
    requires WeightlessFloorPasses(cfg, t) && AltAgrees(sheet)
    requires sheet.sClaimed == Some(0.0) && sheet.sAlt == Some(cfg.eps) && sheet.altKey == Some(InSeries({2}))
    ensures Route(sheet, t, flags).action == Some(Remap({2}))
  {
  }

  lemma SilencingIsNotVouched(m: nat, atLeast: real)
    requires atLeast > 0.0
    ensures AllContracted(Copies(CERTAIN_RUN, m) + [DOUBTFUL_RUN])
    ensures !Vouched(Copies(CERTAIN_RUN, m) + [DOUBTFUL_RUN], TWO_EPISODES, {2}, atLeast)
  {
    var runs := Copies(CERTAIN_RUN, m) + [DOUBTFUL_RUN];
    CopiesAre(CERTAIN_RUN, m);
    assert CERTAIN_RUN.candidates == [CERTAIN_CANDIDATE] && DOUBTFUL_RUN.candidates == [DOUBTFUL_CANDIDATE];
    CertainForm();
    assert {1} != {2} by {
      assert 1 in {1} && 1 !in {2};
    }
    assert !Vouches(CERTAIN_RUN, TWO_EPISODES, {2}, atLeast) && !Vouches(DOUBTFUL_RUN, TWO_EPISODES, {2}, atLeast);
  }

  /** Weightless plugins can make the pipeline remap to a candidate nobody believes in. */
  lemma SilencingRemaps(cfg: Config, l: Link, t: Thresholds, flags: Flags) returns (runs: seq<PluginRun>, episodes: seq<Episode>)
    requires GoodEps(cfg) && cfg.minAgreeing >= 1 && WeightlessFloorPasses(cfg, t)
    ensures Decide(cfg, l, t, flags, runs, episodes, {1}).action == Some(Remap({2}))
    ensures !Vouched(runs, episodes, {2}, t.alt)
    ensures AllContracted(runs)
  {
    var m := cfg.minAgreeing;
    runs, episodes := Copies(CERTAIN_RUN, m) + [DOUBTFUL_RUN], TWO_EPISODES;
    SilencingIsNotVouched(m, t.alt);
    assert Decide(cfg, l, t, flags, runs, episodes, {1}).action == Some(Remap({2})) by {
      SilencingOutcomes(m);
      SilencingSheet(cfg, l, Outcomes(runs, episodes), m, InSeries({1}), InSeries({2}));
      SilencedRemaps(Sheet(cfg, l, Outcomes(runs, episodes), {1}), cfg, t, flags);
    }
  }

  // ----- the exact configurations -----

  /** Every remap is vouched for at the alternate threshold. */
  ghost predicate RemapsAreVouched(cfg: Config, l: Link, t: Thresholds, flags: Flags, weighted: bool) {
    forall runs, episodes, claimedIds, target |
      && AllContracted(runs) && (weighted ==> AllWeighted(runs))
      && Decide(cfg, l, t, flags, runs, episodes, claimedIds).action == Some(Remap(target)) ::
      Vouched(runs, episodes, target, t.alt)
  }

  lemma VouchedOfAll(cfg: Config, l: Link, t: Thresholds, flags: Flags, weighted: bool)
    requires IsLink(l) && GoodEps(cfg) && cfg.minAgreeing >= 1
    requires !FloorPasses(cfg, t) && (weighted || !WeightlessFloorPasses(cfg, t))
    ensures RemapsAreVouched(cfg, l, t, flags, weighted)
  {
    forall runs, episodes, claimedIds, target |
      && AllContracted(runs) && (weighted ==> AllWeighted(runs))
      && Decide(cfg, l, t, flags, runs, episodes, claimedIds).action == Some(Remap(target))
      ensures Vouched(runs, episodes, target, t.alt)
    {
      RemapProvenance(cfg, l, t, flags, runs, episodes, claimedIds, target);
    }
  }

  /** Remap provenance holds of every run of the pipeline exactly if the configuration does not let the
      floor pass; if every plugin carries weight, exactly if it does not let it pass without silencing. */
  lemma RemapProvenanceIff(cfg: Config, l: Link, t: Thresholds, flags: Flags)
    requires IsLink(l) && GoodEps(cfg) && cfg.minAgreeing >= 1
    ensures RemapsAreVouched(cfg, l, t, flags, true) <==> !FloorPasses(cfg, t)
    ensures RemapsAreVouched(cfg, l, t, flags, false) <==> !FloorPasses(cfg, t) && !WeightlessFloorPasses(cfg, t)
  {
    if FloorPasses(cfg, t) {
      var runs, episodes := FloorRemaps(cfg, l, t, flags);
      assert !RemapsAreVouched(cfg, l, t, flags, true) && !RemapsAreVouched(cfg, l, t, flags, false);
    } else {
      VouchedOfAll(cfg, l, t, flags, true);
      if WeightlessFloorPasses(cfg, t) {
        var runs, episodes := SilencingRemaps(cfg, l, t, flags);
        assert !RemapsAreVouched(cfg, l, t, flags, false);
      } else {
        VouchedOfAll(cfg, l, t, flags, false);
      }
    }
  }
}
