/** What the plugins' confidence in the claim does to the decision: consensus, and growing confidence. */
module Confidence {
  import opened Options
  import opened Candidates
  import opened Fusion
  import opened Aggregation
  import opened AggregationMeaning
  import opened Routing

  ghost predicate Agrees(cfg: Config, o: PluginOutcome, key: Key) {
    exists s | s in o.scored :: Hits(s, key) && s.confidence >= cfg.outlierHigh
  }

  ghost function Agreeing(cfg: Config, applicable: seq<PluginOutcome>, key: Key): seq<PluginOutcome> {
    if applicable == [] then []
    else
      var last := applicable[|applicable| - 1];
      Agreeing(cfg, applicable[..|applicable| - 1], key) + if Agrees(cfg, last, key) then [last] else []
  }

  ghost function TotalWeight(os: seq<PluginOutcome>): real {
    if os == [] then 0.0 else TotalWeight(os[..|os| - 1]) + os[|os| - 1].weight
  }

  /** Enough weighted plugins put the claimed set high, and no other plugin puts it above the low mark. */
  ghost predicate Consensus(cfg: Config, applicable: seq<PluginOutcome>, claimed: Key) {
    && |Agreeing(cfg, applicable, claimed)| >= cfg.minAgreeing
    && TotalWeight(Agreeing(cfg, applicable, claimed)) > 0.0
    && forall o | o in applicable && !Agrees(cfg, o, claimed) ::
         forall s | s in o.scored && Hits(s, claimed) :: s.confidence <= cfg.outlierLow
  }

  lemma AgreesScore(cfg: Config, o: PluginOutcome, key: Key)
    ensures Agrees(cfg, o, key) ==> PluginScore(o, key) >= cfg.outlierHigh
    ensures !Agrees(cfg, o, key) && PluginScore(o, key) >= cfg.outlierHigh ==> PluginScore(o, key) == 0.0
  {
    PluginReportsMeaning(o, key, key);
    assert Agrees(cfg, o, key) ==> Reported(o, key);
  }

  lemma {:induction false} AgreeingAreHigh(cfg: Config, applicable: seq<PluginOutcome>, claimed: Key)
    requires forall o | o in applicable :: o.weight >= 0.0
    ensures |High(cfg, Pool(applicable, claimed, claimed))| >= |Agreeing(cfg, applicable, claimed)|
    ensures SumW(High(cfg, Pool(applicable, claimed, claimed))) >= TotalWeight(Agreeing(cfg, applicable, claimed))
    decreases |applicable|
  {
    if applicable != [] {
      var init, last := applicable[..|applicable| - 1], applicable[|applicable| - 1];
      assert applicable == init + [last];
      AgreeingAreHigh(cfg, init, claimed);
      assert PluginReports(last, claimed, claimed) == [ReportOf(last, claimed)] by {
        PluginReportsMeaning(last, claimed, claimed);
      }
      AgreesScore(cfg, last, claimed);
      HighLowSnoc(cfg, Pool(init, claimed, claimed), ReportOf(last, claimed));
      TotalSnoc(Agreeing(cfg, init, claimed), last);
      assert Agreeing(cfg, init, claimed) + [] == Agreeing(cfg, init, claimed);
    }
  }

  lemma TotalSnoc(os: seq<PluginOutcome>, o: PluginOutcome)
    ensures TotalWeight(os + [o]) == TotalWeight(os) + o.weight
  {
    assert (os + [o])[..|os|] == os;
  }

  lemma OthersAreLow(cfg: Config, applicable: seq<PluginOutcome>, claimed: Key)
    requires Consensus(cfg, applicable, claimed) && cfg.outlierLow >= 0.0
    ensures forall r | r in Low(cfg, Pool(applicable, claimed, claimed)) :: r.confidence <= cfg.outlierLow
  {
    var pool := Pool(applicable, claimed, claimed);
    HighLowMembers(cfg, pool);
    PoolMeaning(applicable, claimed, claimed);
    ReportersMeaning(applicable, claimed, claimed);
    forall r | r in Low(cfg, pool) ensures r.confidence <= cfg.outlierLow {
      var i :| 0 <= i < |pool| && pool[i] == r;
      var o := applicable[i];
      assert o in applicable;
      AgreesScore(cfg, o, claimed);
      PluginReportsMeaning(o, claimed, claimed);
    }
  }

  /** Consensus decides: with outlier rejection on, the claim is matched whatever the other plugins say. */
  lemma ConsensusMatches(cfg: Config, l: Link, t: Thresholds, flags: Flags, rs: seq<PluginOutcome>, claimedIds: set<nat>)
    requires IsLink(l) && GoodEps(cfg) && cfg.outlierRejection && cfg.minAgreeing >= 1 && cfg.outlierLow >= 0.0
    requires forall o | o in rs :: o.weight >= 0.0
    requires Consensus(cfg, Applicable(rs), InSeries(claimedIds))
    requires t.quarantine <= cfg.outlierHigh && (cfg.fusion == LogOdds ==> t.quarantine <= 1.0 - cfg.eps)
    ensures Route(Sheet(cfg, l, rs, claimedIds), t, flags).outcome == Matched
  {
    var applicable, claimed := Applicable(rs), InSeries(claimedIds);
    forall o | o in applicable ensures o in rs {
      ApplicableMeaning(rs, o);
    }
    ConsensusScore(cfg, l, t.quarantine, applicable, claimed);
    assert applicable != [];
    SheetScores(cfg, l, rs, claimedIds);
    HighIsMatched(Sheet(cfg, l, rs, claimedIds), t, flags);
  }

  lemma ConsensusScore(cfg: Config, l: Link, quarantine: real, applicable: seq<PluginOutcome>, claimed: Key)
    requires IsLink(l) && GoodEps(cfg) && cfg.outlierRejection && cfg.minAgreeing >= 1 && cfg.outlierLow >= 0.0
    requires forall o | o in applicable :: o.weight >= 0.0
    requires Consensus(cfg, applicable, claimed)
    requires quarantine <= cfg.outlierHigh && (cfg.fusion == LogOdds ==> quarantine <= 1.0 - cfg.eps)
    ensures Score(cfg, l, applicable, claimed, claimed) >= quarantine && applicable != []
  {
    var pool := Pool(applicable, claimed, claimed);
    AgreeingAreHigh(cfg, applicable, claimed);
    OthersAreLow(cfg, applicable, claimed);
    HighLowMembers(cfg, pool);
    PoolWeighted(applicable, claimed);
    HighLowWeighted(cfg, pool);
    if Low(cfg, pool) == [] {
      AllHigh(cfg, pool);
    }
    assert Kept(cfg, pool) == High(cfg, pool);
    KeptScoresHigh(cfg, l, quarantine, High(cfg, pool));
  }

  lemma PoolWeighted(applicable: seq<PluginOutcome>, claimed: Key)
    requires forall o | o in applicable :: o.weight >= 0.0
    ensures Weighted(Pool(applicable, claimed, claimed))
  {
    PoolMeaning(applicable, claimed, claimed);
    ReportersMeaning(applicable, claimed, claimed);
    assert forall i | 0 <= i < |applicable| :: applicable[i] in applicable;
  }

  lemma {:induction false} AllHigh(cfg: Config, rs: seq<Report>)
    requires Low(cfg, rs) == []
    ensures High(cfg, rs) == rs
    decreases |rs|
  {
    if rs != [] {
      AllHigh(cfg, rs[..|rs| - 1]);
    }
  }

  lemma KeptScoresHigh(cfg: Config, l: Link, quarantine: real, kept: seq<Report>)
    requires IsLink(l) && GoodEps(cfg) && Weighted(kept) && SumW(kept) > 0.0
    requires forall r | r in kept :: r.confidence >= cfg.outlierHigh
    requires quarantine <= cfg.outlierHigh && (cfg.fusion == LogOdds ==> quarantine <= 1.0 - cfg.eps)
    ensures Fuse(cfg, l, kept) >= quarantine
  {
    var least, greatest := FuseIsBetweenReports(cfg, l, kept);
    assert kept[least] in kept;
  }

  // ----- raising a confidence -----

  /** The same plugins, each at least as confident in the claimed set as before. */
  ghost predicate MoreConfident(a: seq<PluginOutcome>, b: seq<PluginOutcome>, claimed: Key) {
    |a| == |b| && forall i | 0 <= i < |a| ::
      a[i].name == b[i].name && a[i].weight == b[i].weight && PluginScore(a[i], claimed) <= PluginScore(b[i], claimed)
  }

  lemma RaisedPool(a: seq<PluginOutcome>, b: seq<PluginOutcome>, claimed: Key)
    requires MoreConfident(a, b, claimed)
    ensures Raised(Pool(a, claimed, claimed), Pool(b, claimed, claimed))
  {
    PoolMeaning(a, claimed, claimed);
    PoolMeaning(b, claimed, claimed);
    ReportersMeaning(a, claimed, claimed);
    ReportersMeaning(b, claimed, claimed);
  }

  /** Without outlier rejection a matched file stays matched when plugins grow more confident in the claim. */
  lemma MatchedStaysMatched(cfg: Config, l: Link, t: Thresholds, flags: Flags,
                            rs: seq<PluginOutcome>, rs': seq<PluginOutcome>, claimedIds: set<nat>)
    requires IsLink(l) && GoodEps(cfg) && !cfg.outlierRejection
    requires forall o | o in rs :: o.weight >= 0.0
    requires MoreConfident(Applicable(rs), Applicable(rs'), InSeries(claimedIds))
    ensures Route(Sheet(cfg, l, rs, claimedIds), t, flags).outcome == Matched ==>
              Route(Sheet(cfg, l, rs', claimedIds), t, flags).outcome == Matched
  {
    var a, b, claimed := Applicable(rs), Applicable(rs'), InSeries(claimedIds);
    forall o | o in a ensures o in rs {
      ApplicableMeaning(rs, o);
    }
    PoolWeighted(a, claimed);
    RaisedPool(a, b, claimed);
    FuseMonotone(cfg, l, Pool(a, claimed, claimed), Pool(b, claimed, claimed));
    SheetScores(cfg, l, rs, claimedIds);
    SheetScores(cfg, l, rs', claimedIds);
    if a != [] {
      HighIsMatched(Sheet(cfg, l, rs, claimedIds), t, flags);
      HighIsMatched(Sheet(cfg, l, rs', claimedIds), t, flags);
    }
  }

  // ----- with outlier rejection a raised confidence can lower the score -----

  predicate InRange(rs: seq<Report>) {
    forall i | 0 <= i < |rs| :: 0.0 <= rs[i].confidence <= 1.0
  }

  predicate AllWeighted(rs: seq<Report>) {
    forall i | 0 <= i < |rs| :: rs[i].weight > 0.0
  }

  /** Marks that let reports between 0 and 1 agree, and a report of 0 be left out. */
  predicate ProperMarks(cfg: Config) {
    cfg.minAgreeing >= 1 && 0.0 < cfg.outlierHigh < 1.0 && cfg.outlierLow >= 0.0
  }

  /** Growing more confident never lowers the score: of any pools, or of pools in which all reports carry weight. */
  ghost predicate RaisingIsSafe(cfg: Config, l: Link, weighted: bool) {
    forall rs, rs' | Weighted(rs) && (weighted ==> AllWeighted(rs)) && Raised(rs, rs') && InRange(rs) && InRange(rs') ::
      Fuse(cfg, l, Kept(cfg, rs)) <= Fuse(cfg, l, Kept(cfg, rs'))
  }

  lemma LogisticStrict(l: Link, x: real, y: real)
    requires IsLink(l) && x < y
    ensures l.logistic(x) < l.logistic(y)
  {
    LogisticMono(l, x, y);
    assert l.logit(l.logistic(x)) == x && l.logit(l.logistic(y)) == y;
  }

  lemma TermStrict(cfg: Config, l: Link, a: real, b: real)
    requires IsLink(l) && GoodEps(cfg) && Value(cfg, a) < Value(cfg, b)
    ensures Term(cfg, l, a) < Term(cfg, l, b)
  {
    ClampMono(a, a, cfg.eps);
    ClampMono(b, b, cfg.eps);
  }

  /** One weighted report with less than the top value keeps a pool below it. */
  lemma BelowTop(cfg: Config, l: Link, tops: seq<Report>, r: Report)
    requires IsLink(l) && GoodEps(cfg) && Weighted(tops) && r.weight == 1.0
    requires (forall i | 0 <= i < |tops| :: tops[i].confidence == 1.0) && Value(cfg, r.confidence) < Value(cfg, 1.0)
    ensures Fuse(cfg, l, tops + [r]) < Value(cfg, 1.0)
  {
    var top, t, pool := Term(cfg, l, 1.0), Term(cfg, l, r.confidence), tops + [r];
    TermStrict(cfg, l, r.confidence, 1.0);
    SumTAtMost(cfg, l, tops, top);
    SumOfNonNegative(tops);
    SumOfSnoc(WeightOf, tops, r);
    SumOfSnoc(Share(cfg, l), tops, r);
    MeanBelow(SumT(cfg, l, tops), SumW(tops), t, top);
    FuseIsPooled(cfg, l, pool);
    TermValue(cfg, l, 1.0);
    if cfg.fusion == LogOdds {
      LogisticStrict(l, SumT(cfg, l, pool) / SumW(pool), top);
    }
  }

  lemma MeanBelow(sum: real, weight: real, t: real, top: real)
    requires weight >= 0.0 && sum <= top * weight && t < top
    ensures (sum + 1.0 * t) / (weight + 1.0) < top
  {
    var x, w := sum + t, weight + 1.0;
    DivIs(x, w);
    if x / w >= top {
      MulMono(w, top, x / w);
      assert w * top == top * weight + top;
    }
  }

  lemma TopScore(cfg: Config, l: Link, tops: seq<Report>)
    requires IsLink(l) && GoodEps(cfg) && Weighted(tops) && SumW(tops) > 0.0
    requires forall i | 0 <= i < |tops| :: tops[i].confidence == 1.0
    ensures Fuse(cfg, l, tops) == Value(cfg, 1.0)
  {
    FuseBetween(cfg, l, tops, 1.0, 1.0);
  }

  /** What rejection makes of agreeing reports and one more. */
  lemma AgreeingAndOne(cfg: Config, tops: seq<Report>, top: Report, n: nat, r: Report)
    requires ProperMarks(cfg) && cfg.outlierRejection && tops == Copies(top, n) && top.confidence == 1.0
    ensures r.confidence >= cfg.outlierHigh ==> High(cfg, tops + [r]) == tops + [r] && Kept(cfg, tops + [r]) == tops + [r]
    ensures r.confidence == 0.0 && n >= cfg.minAgreeing ==> Kept(cfg, tops + [r]) == tops
  {
    HighOfCopies(cfg, top, n);
    LowOfCopies(cfg, top, n);
    HighLowSnoc(cfg, tops, r);
  }

  /** Enough reports at 1 hold the score at the top while one at 0 is left out; raised to the high mark,
      that one counts and pulls the score down. */
  lemma JoiningLowers(cfg: Config, l: Link) returns (rs: seq<Report>, rs': seq<Report>)
    requires IsLink(l) && GoodEps(cfg) && ProperMarks(cfg) && cfg.outlierRejection
    requires Value(cfg, cfg.outlierHigh) < Value(cfg, 1.0)
    ensures AllWeighted(rs) && Weighted(rs) && Raised(rs, rs') && InRange(rs) && InRange(rs')
    ensures rs != [] && Weighted(rs') && forall i | 0 <= i < |rs| :: rs[i].plugin == rs'[i].plugin
    ensures Fuse(cfg, l, Kept(cfg, rs)) > Fuse(cfg, l, Kept(cfg, rs'))
  {
    var top, low, raised := Report("a", 1.0, 1.0), Report("b", 1.0, 0.0), Report("b", 1.0, cfg.outlierHigh);
    var tops := Copies(top, cfg.minAgreeing);
    rs, rs' := tops + [low], tops + [raised];
    CopiesAre(top, cfg.minAgreeing);
    LastRaised(tops, low, raised);
    LeftOutScore(cfg, l, tops, top, low);
    JoinedScore(cfg, l, tops, top, raised);
  }

  lemma LastRaised(tops: seq<Report>, low: Report, raised: Report)
    requires AllWeighted(tops) && InRange(tops) && low.weight == raised.weight > 0.0 && low.plugin == raised.plugin
    requires 0.0 <= low.confidence <= raised.confidence <= 1.0
    ensures var rs, rs' := tops + [low], tops + [raised];
            && AllWeighted(rs) && Weighted(rs) && Weighted(rs') && Raised(rs, rs') && InRange(rs) && InRange(rs')
            && forall i | 0 <= i < |rs| :: rs[i].plugin == rs'[i].plugin
  {
  }

  lemma LeftOutScore(cfg: Config, l: Link, tops: seq<Report>, top: Report, low: Report)
    requires IsLink(l) && GoodEps(cfg) && ProperMarks(cfg) && cfg.outlierRejection
    requires tops == Copies(top, cfg.minAgreeing) && top.weight == 1.0 && top.confidence == 1.0 && low.confidence == 0.0
    ensures Fuse(cfg, l, Kept(cfg, tops + [low])) == Value(cfg, 1.0)
  {
    CopiesAre(top, cfg.minAgreeing);
    SumWOfCopies(top, cfg.minAgreeing);
    AgreeingAndOne(cfg, tops, top, cfg.minAgreeing, low);
    TopScore(cfg, l, tops);
  }

  lemma JoinedScore(cfg: Config, l: Link, tops: seq<Report>, top: Report, raised: Report)
    requires IsLink(l) && GoodEps(cfg) && ProperMarks(cfg) && cfg.outlierRejection && Value(cfg, cfg.outlierHigh) < Value(cfg, 1.0)
    requires tops == Copies(top, cfg.minAgreeing) && top.weight == 1.0 && top.confidence == 1.0
    requires raised.confidence == cfg.outlierHigh && raised.weight == 1.0
    ensures Fuse(cfg, l, Kept(cfg, tops + [raised])) < Value(cfg, 1.0)
  {
    CopiesAre(top, cfg.minAgreeing);
    AgreeingAndOne(cfg, tops, top, cfg.minAgreeing, raised);
    BelowTop(cfg, l, tops, raised);
  }

  /** One report short of agreement nothing is left out; a weightless report raised to the mark completes
      it, and all weight is left out. */
  lemma CompletingLowers(cfg: Config, l: Link) returns (rs: seq<Report>, rs': seq<Report>)
    requires IsLink(l) && GoodEps(cfg) && ProperMarks(cfg) && cfg.outlierRejection && cfg.fusion == LogOdds
    ensures Weighted(rs) && Raised(rs, rs') && InRange(rs) && InRange(rs')
    ensures rs != [] && Weighted(rs') && forall i | 0 <= i < |rs| :: rs[i].plugin == rs'[i].plugin
    ensures Fuse(cfg, l, Kept(cfg, rs)) > Fuse(cfg, l, Kept(cfg, rs'))
  {
    var z, n := Report("z", 0.0, 1.0), cfg.minAgreeing - 1;
    var zs, off, c := Copies(z, n), Report("z", 0.0, 0.0), Report("c", 1.0, 0.0);
    rs, rs' := zs + [off] + [c], zs + [z] + [c];
    CopiesAre(z, n);
    OneRaised(zs, off, z, c);
    assert Fuse(cfg, l, Kept(cfg, rs)) >= cfg.eps by {
      NotYetAgreeing(cfg, l, zs, z, n, off, c);
    }
    assert Fuse(cfg, l, Kept(cfg, rs')) == 0.0 by {
      NowAgreeing(cfg, l, zs + [z], z, n + 1, c);
    }
  }

  lemma OneRaised(zs: seq<Report>, off: Report, z: Report, c: Report)
    requires Weighted(zs) && InRange(zs) && off.weight == z.weight >= 0.0 && off.plugin == z.plugin && c.weight >= 0.0
    requires 0.0 <= off.confidence <= z.confidence <= 1.0 && 0.0 <= c.confidence <= 1.0
    ensures var rs, rs' := zs + [off] + [c], zs + [z] + [c];
            && Weighted(rs) && Weighted(rs') && Raised(rs, rs') && InRange(rs) && InRange(rs')
            && forall i | 0 <= i < |rs| :: rs[i].plugin == rs'[i].plugin
  {
  }

  lemma NotYetAgreeing(cfg: Config, l: Link, zs: seq<Report>, z: Report, n: nat, off: Report, c: Report)
    requires IsLink(l) && GoodEps(cfg) && ProperMarks(cfg) && cfg.fusion == LogOdds && n == cfg.minAgreeing - 1
    requires zs == Copies(z, n) && z.weight == off.weight == 0.0 && z.confidence == 1.0
    requires off.confidence == c.confidence == 0.0 && c.weight == 1.0
    ensures Fuse(cfg, l, Kept(cfg, zs + [off] + [c])) >= cfg.eps
  {
    var rs := zs + [off] + [c];
    CopiesAre(z, n);
    HighOfCopies(cfg, z, n);
    HighLowSnoc(cfg, zs, off);
    HighLowSnoc(cfg, zs + [off], c);
    SumWOfCopies(z, n);
    SumOfSnoc(WeightOf, zs, off);
    SumOfSnoc(WeightOf, zs + [off], c);
    assert Kept(cfg, rs) == rs;
    var least, greatest := FuseIsBetweenReports(cfg, l, rs);
    ClampMono(rs[least].confidence, rs[least].confidence, cfg.eps);
  }

  lemma NowAgreeing(cfg: Config, l: Link, zs: seq<Report>, z: Report, n: nat, c: Report)
    requires ProperMarks(cfg) && cfg.outlierRejection && n == cfg.minAgreeing
    requires zs == Copies(z, n) && z.weight == 0.0 && z.confidence == 1.0 && c.confidence == 0.0
    ensures Fuse(cfg, l, Kept(cfg, zs + [c])) == 0.0
  {
    AgreeingAndOne(cfg, zs, z, n, c);
    SumWOfCopies(z, n);
  }

  lemma RaisingIsSafeWithout(cfg: Config, l: Link, weighted: bool)
    requires IsLink(l) && GoodEps(cfg) && !cfg.outlierRejection
    ensures RaisingIsSafe(cfg, l, weighted)
  {
    forall rs, rs' | Weighted(rs) && (weighted ==> AllWeighted(rs)) && Raised(rs, rs') && InRange(rs) && InRange(rs')
      ensures Fuse(cfg, l, Kept(cfg, rs)) <= Fuse(cfg, l, Kept(cfg, rs'))
    {
      FuseMonotone(cfg, l, rs, rs');
    }
  }

  /** Growing more confident never lowers a score exactly if outlier rejection is off: under both fusions,
      whatever the marks.  Weightless reports are needed to show it only where log-odds clamps the high
      mark to the top. */
  lemma RaisingIsSafeIff(cfg: Config, l: Link)
    requires IsLink(l) && GoodEps(cfg) && ProperMarks(cfg)
    ensures RaisingIsSafe(cfg, l, false) <==> !cfg.outlierRejection
    ensures Value(cfg, cfg.outlierHigh) < Value(cfg, 1.0) ==> (RaisingIsSafe(cfg, l, true) <==> !cfg.outlierRejection)
  {
    if !cfg.outlierRejection {
      RaisingIsSafeWithout(cfg, l, false);
      RaisingIsSafeWithout(cfg, l, true);
    } else if Value(cfg, cfg.outlierHigh) < Value(cfg, 1.0) {
      var rs, rs' := JoiningLowers(cfg, l);
      assert !RaisingIsSafe(cfg, l, false) && !RaisingIsSafe(cfg, l, true);
    } else {
      var rs, rs' := CompletingLowers(cfg, l);
      assert !RaisingIsSafe(cfg, l, false);
    }
  }

  // ----- and unmatch a file -----

  /** A plugin that reports just the claim. */
  function Claimant(r: Report, ids: set<nat>): PluginOutcome {
    PluginOutcome(r.plugin, r.weight, Ok, [Scored(r.confidence, InSeriesCandidate(ids))])
  }

  function Claimants(rs: seq<Report>, ids: set<nat>): (os: seq<PluginOutcome>)
    ensures |os| == |rs| && forall i | 0 <= i < |rs| :: os[i] == Claimant(rs[i], ids)
  {
    seq(|rs|, i requires 0 <= i < |rs| => Claimant(rs[i], ids))
  }

  lemma ClaimantReports(r: Report, ids: set<nat>, claimed: Key)
    requires claimed == InSeries(ids)
    ensures PluginScore(Claimant(r, ids), claimed) == r.confidence
    ensures PluginReports(Claimant(r, ids), claimed, claimed) == [r]
  {
    var o, s := Claimant(r, ids), Scored(r.confidence, InSeriesCandidate(ids));
    assert o.scored == [s] && [s][..0] == [];
    assert Best([], claimed) == None && Best([s], claimed) == Some(r.confidence);
    assert KeysIn([]) == [] && KeysIn([s]) == [claimed];
  }

  lemma {:induction false} ClaimantsPool(rs: seq<Report>, ids: set<nat>, claimed: Key)
    requires claimed == InSeries(ids)
    ensures Applicable(Claimants(rs, ids)) == Claimants(rs, ids)
    ensures Pool(Claimants(rs, ids), claimed, claimed) == rs
    decreases |rs|
  {
    var os := Claimants(rs, ids);
    if rs != [] {
      var n := |rs| - 1;
      assert os[..n] == Claimants(rs[..n], ids) && os[n] == Claimant(rs[n], ids);
      ClaimantsPool(rs[..n], ids, claimed);
      ClaimantReports(rs[n], ids, claimed);
      assert Applicable(os) == Applicable(os[..n]) + [os[n]];
    }
  }

  lemma ClaimantsRaised(rs: seq<Report>, rs': seq<Report>, ids: set<nat>, claimed: Key)
    requires claimed == InSeries(ids) && Raised(rs, rs') && forall i | 0 <= i < |rs| :: rs[i].plugin == rs'[i].plugin
    ensures MoreConfident(Claimants(rs, ids), Claimants(rs', ids), claimed)
  {
    forall i | 0 <= i < |rs| ensures PluginScore(Claimants(rs, ids)[i], claimed) <= PluginScore(Claimants(rs', ids)[i], claimed) {
      ClaimantReports(rs[i], ids, claimed);
      ClaimantReports(rs'[i], ids, claimed);
    }
  }

  ghost predicate ConfidencesInRange(rs: seq<PluginOutcome>) {
    forall o | o in rs :: o.weight >= 0.0 && forall s | s in o.scored :: 0.0 <= s.confidence <= 1.0
  }

  /** A matched file stays matched when plugins grow more confident in the claim, at any thresholds. */
  ghost predicate MatchesArePersistent(cfg: Config, l: Link, flags: Flags) {
    forall t, rs, rs', claimedIds |
      && ConfidencesInRange(rs) && ConfidencesInRange(rs')
      && MoreConfident(Applicable(rs), Applicable(rs'), InSeries(claimedIds))
      && Route(Sheet(cfg, l, rs, claimedIds), t, flags).outcome == Matched ::
      Route(Sheet(cfg, l, rs', claimedIds), t, flags).outcome == Matched
  }

  /** Any pools on which raising lowers the score make a run in which it unmatches the file. */
  lemma LoweringUnmatches(cfg: Config, l: Link, flags: Flags, rs: seq<Report>, rs': seq<Report>, ids: set<nat>)
    requires Weighted(rs) && Weighted(rs') && Raised(rs, rs') && InRange(rs) && InRange(rs') && rs != []
    requires forall i | 0 <= i < |rs| :: rs[i].plugin == rs'[i].plugin
    requires Fuse(cfg, l, Kept(cfg, rs)) > Fuse(cfg, l, Kept(cfg, rs'))
    ensures !MatchesArePersistent(cfg, l, flags)
  {
    var os, os', t := Claimants(rs, ids), Claimants(rs', ids), Thresholds(Fuse(cfg, l, Kept(cfg, rs)), 0.0, 0.0, 0.0, 0);
    ClaimantsMatched(cfg, l, t, flags, rs, ids);
    ClaimantsMatched(cfg, l, t, flags, rs', ids);
    ClaimantsInRange(rs, ids);
    ClaimantsInRange(rs', ids);
    assert MoreConfident(Applicable(os), Applicable(os'), InSeries(ids)) by {
      ClaimantsPool(rs, ids, InSeries(ids));
      ClaimantsPool(rs', ids, InSeries(ids));
      ClaimantsRaised(rs, rs', ids, InSeries(ids));
    }
  }

  lemma ClaimantsInRange(rs: seq<Report>, ids: set<nat>)
    requires Weighted(rs) && InRange(rs)
    ensures ConfidencesInRange(Claimants(rs, ids))
  {
  }

  /** The decision on claimants is that on their reports. */
  lemma ClaimantsMatched(cfg: Config, l: Link, t: Thresholds, flags: Flags, rs: seq<Report>, ids: set<nat>)
    requires rs != []
    ensures Route(Sheet(cfg, l, Claimants(rs, ids), ids), t, flags).outcome == Matched <==> Fuse(cfg, l, Kept(cfg, rs)) >= t.quarantine
  {
    ClaimantsPool(rs, ids, InSeries(ids));
    SheetScores(cfg, l, Claimants(rs, ids), ids);
    HighIsMatched(Sheet(cfg, l, Claimants(rs, ids), ids), t, flags);
  }

  /** Growing confidence in the claim never unmatches a file exactly if outlier rejection is off. */
  lemma MatchesPersistIff(cfg: Config, l: Link, flags: Flags)
    requires IsLink(l) && GoodEps(cfg) && ProperMarks(cfg)
    ensures MatchesArePersistent(cfg, l, flags) <==> !cfg.outlierRejection
  {
    if !cfg.outlierRejection {
      forall t, rs, rs', claimedIds |
        && ConfidencesInRange(rs) && ConfidencesInRange(rs')
        && MoreConfident(Applicable(rs), Applicable(rs'), InSeries(claimedIds))
        && Route(Sheet(cfg, l, rs, claimedIds), t, flags).outcome == Matched
        ensures Route(Sheet(cfg, l, rs', claimedIds), t, flags).outcome == Matched
      {
        MatchedStaysMatched(cfg, l, t, flags, rs, rs', claimedIds);
      }
    } else if Value(cfg, cfg.outlierHigh) < Value(cfg, 1.0) {
      var rs, rs' := JoiningLowers(cfg, l);
      LoweringUnmatches(cfg, l, flags, rs, rs', {1});
    } else {
      var rs, rs' := CompletingLowers(cfg, l);
      LoweringUnmatches(cfg, l, flags, rs, rs', {1});
    }
  }

  /** An everyday case: at the default marks, a plugin that moves from 0.2 to 0.3 is no longer left out,
      and a linear score of 0.9 falls to 0.7. */
  lemma RaisingCanLowerTheScore(cfg: Config, l: Link, a: Report, b: Report, low: Report, raised: Report)
    requires cfg == Config(Linear, 0.02, true, 0.8, 0.2, 2)
    requires a == Report("a", 1.0, 0.9) && b == Report("b", 1.0, 0.9)
    requires low == Report("c", 1.0, 0.2) && raised == Report("c", 1.0, 0.3)
    ensures Raised([a, b, low], [a, b, raised])
    ensures Fuse(cfg, l, Kept(cfg, [a, b, low])) == 0.9 && Fuse(cfg, l, Kept(cfg, [a, b, raised])) == 0.7
  {
    PairAndOne(cfg, a, b, low);
    PairAndOne(cfg, a, b, raised);
    assert low in Low(cfg, [a, b, low]);
    assert raised in Low(cfg, [a, b, raised]);
    SumsOfThree(cfg, l, a, b, raised);
    SumsOfThree(cfg, l, a, b, low);
  }

  lemma PairAndOne(cfg: Config, a: Report, b: Report, c: Report)
    requires a.confidence >= cfg.outlierHigh && b.confidence >= cfg.outlierHigh && c.confidence < cfg.outlierHigh
    ensures High(cfg, [a, b, c]) == [a, b] && Low(cfg, [a, b, c]) == [c]
  {
    assert [a, b, c][..2] == [a, b] && [a, b][..1] == [a] && [a][..0] == [];
    assert High(cfg, []) == [] && Low(cfg, []) == [];
    assert High(cfg, [a]) == [a] && Low(cfg, [a]) == [];
    assert High(cfg, [a, b]) == [a, b] && Low(cfg, [a, b]) == [];
  }

  lemma SumsOfThree(cfg: Config, l: Link, a: Report, b: Report, c: Report)
    requires cfg.fusion == Linear && a.weight == b.weight == c.weight == 1.0
    ensures SumW([a, b]) == 2.0 && SumT(cfg, l, [a, b]) == a.confidence + b.confidence
    ensures SumW([a, b, c]) == 3.0 && SumT(cfg, l, [a, b, c]) == a.confidence + b.confidence + c.confidence
  {
    assert [a, b, c][..2] == [a, b] && [a, b][..1] == [a] && [a][..0] == [];
    assert SumW([]) == 0.0 && SumW([a]) == 1.0;
    assert SumT(cfg, l, []) == 0.0 && SumT(cfg, l, [a]) == a.confidence;
  }
}
