/** Where the parts of a score sheet come from, told from the plugins' results. */
module SheetSources {
  import opened Options
  import opened Candidates
  import opened Fusion
  import opened Aggregation
  import opened AggregationMeaning

  /** The candidate stands for the key.  One that could not be normalized stands for none. */
  predicate Means(s: Scored, key: Key) {
    match s.norm
    case InSeriesCandidate(ids) => key == InSeries(ids)
    case CrossSeriesCandidate(external) => key == Cross(external)
    case JunkCandidate => key == Junk
    case Unnormalizable => false
  }

  lemma HitsIff(s: Scored, key: Key)
    ensures Hits(s, key) <==> Means(s, key)
  {
  }

  ghost predicate Brings(o: PluginOutcome, claimed: Key, key: Key) {
    o.status == Ok && (key == claimed || exists s :: s in o.scored && Means(s, key))
  }

  /** The keys of a sheet: what some ok plugin's candidates stand for, and the claimed set if a plugin is ok at all.
      Candidates that could not be normalized, and all of plugins that are not ok, bring nothing. */
  lemma KeySourceIff(results: seq<PluginOutcome>, claimedIds: set<nat>, key: Key)
    ensures key in SheetKeys(results, claimedIds) <==> exists o :: o in results && Brings(o, InSeries(claimedIds), key)
  {
    var claimed, applicable := InSeries(claimedIds), Applicable(results);
    KeyOrderMeaning(applicable, claimed, key);
    forall o ensures o in applicable && (Reported(o, key) || key == claimed) <==> o in results && Brings(o, claimed, key) {
      ApplicableMeaning(results, o);
      if Reported(o, key) {
        var s :| s in o.scored && Hits(s, key);
        HitsIff(s, key);
      }
      if s :| s in o.scored && Means(s, key) {
        HitsIff(s, key);
      }
    }
  }

  lemma SheetParts(cfg: Config, l: Link, results: seq<PluginOutcome>, claimedIds: set<nat>)
    ensures var sheet, claimed, applicable := Sheet(cfg, l, results, claimedIds), InSeries(claimedIds), Applicable(results);
            var keys := KeyOrder(applicable, claimed);
            && sheet.altKey == Alternate(keys, claimed, Scorer(cfg, l, applicable, claimed))
            && sheet.outliersExcluded == AllExclusions(Dropper(cfg, applicable, claimed), keys)
            && (sheet.altKind == match sheet.altKey case Some(k) => Some(KindOf(k)) case None => None)
  {
  }

  lemma KindIff(key: Key)
    ensures KindOf(key) == InSeriesKind <==> key.InSeries?
    ensures KindOf(key) == CrossSeriesKind <==> key.Cross?
    ensures KindOf(key) == JunkKind <==> key == Junk
  {
  }

  /** The alternate of a sheet, as some ok plugin's candidate said it, and the kind it is given: a set of episodes,
      another series, or junk. */
  lemma AlternateSource(cfg: Config, l: Link, results: seq<PluginOutcome>, claimedIds: set<nat>)
    ensures var alt, kind := Sheet(cfg, l, results, claimedIds).altKey, Sheet(cfg, l, results, claimedIds).altKind;
            && (kind == Some(InSeriesKind) <==> alt.Some? && alt.value.InSeries?)
            && (kind == Some(CrossSeriesKind) <==> alt.Some? && alt.value.Cross?)
            && (kind == Some(JunkKind) <==> alt == Some(Junk))
            && (alt.Some? ==> exists o :: o in results && alt.value != InSeries(claimedIds) && Brings(o, InSeries(claimedIds), alt.value))
  {
    SheetParts(cfg, l, results, claimedIds);
    var alt := Sheet(cfg, l, results, claimedIds).altKey;
    if alt.Some? {
      KindIff(alt.value);
      var claimed := InSeries(claimedIds);
      var keys, score := KeyOrder(Applicable(results), claimed), Scorer(cfg, l, Applicable(results), claimed);
      KeyOrderDistinct(Applicable(results), claimed);
      AlternateIsHighest(keys, claimed, score);
      assert alt.value in SheetKeys(results, claimedIds) - {claimed};
      KeySourceIff(results, claimedIds, alt.value);
    }
  }

  // ----- what was left out -----

  /** The report was left out of the key's pool: enough others agree high, all that do not are low, and it is one
      of those. */
  predicate LeftOut(cfg: Config, pool: seq<Report>, r: Report) {
    r in pool && cfg.outlierRejection && r.confidence < cfg.outlierHigh
    && |High(cfg, pool)| >= cfg.minAgreeing && forall other | other in pool && other.confidence < cfg.outlierHigh :: other.confidence <= cfg.outlierLow
  }

  lemma {:induction false} LowHas(cfg: Config, rs: seq<Report>)
    ensures forall r :: r in Low(cfg, rs) <==> r in rs && r.confidence < cfg.outlierHigh
    decreases |rs|
  {
    if rs != [] {
      assert rs == rs[..|rs| - 1] + [rs[|rs| - 1]];
      LowHas(cfg, rs[..|rs| - 1]);
    }
  }

  lemma ExcludedHas(cfg: Config, pool: seq<Report>)
    ensures forall r :: r in Excluded(cfg, pool) <==> LeftOut(cfg, pool, r)
  {
    LowHas(cfg, pool);
  }

  lemma {:induction false} ExclusionsHas(excluded: seq<Report>, key: Key, x: Exclusion)
    ensures x in Exclusions(excluded, key) <==> exists r :: r in excluded && x == Exclusion(r.plugin, r.confidence, KeyRepr(key))
    decreases |excluded|
  {
    if excluded != [] {
      var init, last := excluded[..|excluded| - 1], excluded[|excluded| - 1];
      assert excluded == init + [last];
      ExclusionsHas(init, key, x);
    }
  }

  lemma {:induction false} AllExclusionsHas(dropped: Key -> seq<Exclusion>, keys: seq<Key>, x: Exclusion)
    ensures x in AllExclusions(dropped, keys) <==> exists key :: key in keys && x in dropped(key)
    decreases |keys|
  {
    if keys != [] {
      assert keys == keys[..|keys| - 1] + [keys[|keys| - 1]];
      AllExclusionsHas(dropped, keys[..|keys| - 1], x);
    }
  }

  ghost predicate Reports(cfg: Config, pool: seq<Report>, key: Key, x: Exclusion) {
    exists r :: LeftOut(cfg, pool, r) && x == Exclusion(r.plugin, r.confidence, KeyRepr(key))
  }

  /** What the sheet lists as excluded: for each key, exactly the reports that were left out of its pool, by plugin,
      confidence and printed key. */
  lemma ExclusionListedIff(cfg: Config, l: Link, results: seq<PluginOutcome>, claimedIds: set<nat>, x: Exclusion)
    ensures x in Sheet(cfg, l, results, claimedIds).outliersExcluded <==>
            exists key :: key in SheetKeys(results, claimedIds)
                          && Reports(cfg, Pool(Applicable(results), InSeries(claimedIds), key), key, x)
  {
    SheetParts(cfg, l, results, claimedIds);
    ListedIff(cfg, Applicable(results), InSeries(claimedIds), KeyOrder(Applicable(results), InSeries(claimedIds)), x);
  }

  lemma ListedIff(cfg: Config, applicable: seq<PluginOutcome>, claimed: Key, keys: seq<Key>, x: Exclusion)
    ensures x in AllExclusions(Dropper(cfg, applicable, claimed), keys) <==>
            exists key :: key in KeySet(keys) && Reports(cfg, Pool(applicable, claimed, key), key, x)
  {
    var dropped := Dropper(cfg, applicable, claimed);
    AllExclusionsHas(dropped, keys, x);
    if x in AllExclusions(dropped, keys) {
      var key :| key in keys && x in dropped(key);
      DroppedIff(cfg, applicable, claimed, key, x);
      assert key in KeySet(keys);
    }
    if key :| key in KeySet(keys) && Reports(cfg, Pool(applicable, claimed, key), key, x) {
      DroppedIff(cfg, applicable, claimed, key, x);
    }
  }

  lemma DroppedIff(cfg: Config, applicable: seq<PluginOutcome>, claimed: Key, key: Key, x: Exclusion)
    ensures x in Dropper(cfg, applicable, claimed)(key) <==> Reports(cfg, Pool(applicable, claimed, key), key, x)
  {
    var pool := Pool(applicable, claimed, key);
    ExclusionsHas(Excluded(cfg, pool), key, x);
    ExcludedHas(cfg, pool);
  }
}
