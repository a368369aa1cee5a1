/** `aggregate` of `scoring.py`: pool the plugins' reports by candidate key and pick the best alternate. */
module Aggregation {
  import opened Options
  import opened Candidates
  import opened Fusion
  import opened StableSort

  datatype Status = Ok | Abstain | Error

  /** One candidate of a plugin with its normalized form. */
  datatype Scored = Scored(confidence: real, norm: Normalized)

  datatype PluginOutcome = PluginOutcome(name: string, weight: real, status: Status, scored: seq<Scored>)

  datatype Exclusion = Exclusion(plugin: string, confidence: real, candidate: string)

  datatype ScoreSheet = ScoreSheet(
    sClaimed: Option<real>, sAlt: Option<real>, altKey: Option<Key>, altKind: Option<Kind>,
    applicableCount: nat, perCandidate: map<string, real>, outliersExcluded: seq<Exclusion>)

  // ----- one plugin -----

  predicate Hits(s: Scored, key: Key) {
    KeyFor(s.norm) == Some(key)
  }

  /** The plugin's largest confidence on a key, if it reported the key. */
  function Best(scored: seq<Scored>, key: Key): Option<real> {
    if scored == [] then None
    else
      var before, last := Best(scored[..|scored| - 1], key), scored[|scored| - 1];
      if !Hits(last, key) then before
      else if before.Some? && before.value >= last.confidence then before
      else Some(last.confidence)
  }

  /** Keys in the order the plugin's dict first met them. */
  function KeysIn(scored: seq<Scored>): seq<Key> {
    if scored == [] then []
    else AddKey(KeysIn(scored[..|scored| - 1]), KeyFor(scored[|scored| - 1].norm))
  }

  function AddKey(keys: seq<Key>, key: Option<Key>): seq<Key> {
    if key.None? || key.value in keys then keys else keys + [key.value]
  }

  /** ... with the claimed key added at the end when the plugin did not report it. */
  function PluginKeys(o: PluginOutcome, claimed: Key): seq<Key> {
    AddKey(KeysIn(o.scored), Some(claimed))
  }

  /** The plugin's report on a key: its largest confidence, or 0 if it never reported the key. */
  function PluginScore(o: PluginOutcome, key: Key): real {
    match Best(o.scored, key)
    case Some(c) => c
    case None => 0.0
  }

  // ----- the pools -----

  function Applicable(results: seq<PluginOutcome>): seq<PluginOutcome> {
    if results == [] then []
    else
      var last := results[|results| - 1];
      Applicable(results[..|results| - 1]) + if last.status == Ok then [last] else []
  }

  function PluginReports(o: PluginOutcome, claimed: Key, key: Key): seq<Report> {
    if key in PluginKeys(o, claimed) then [Report(o.name, o.weight, PluginScore(o, key))] else []
  }

  /** The reports on a key, in plugin order. */
  function Pool(applicable: seq<PluginOutcome>, claimed: Key, key: Key): seq<Report> {
    if applicable == [] then []
    else Pool(applicable[..|applicable| - 1], claimed, key) + PluginReports(applicable[|applicable| - 1], claimed, key)
  }

  function AddKeys(keys: seq<Key>, more: seq<Key>): seq<Key> {
    if more == [] then keys else AddKey(AddKeys(keys, more[..|more| - 1]), Some(more[|more| - 1]))
  }

  /** All keys, in the order the dict of pools first met them. */
  function KeyOrder(applicable: seq<PluginOutcome>, claimed: Key): seq<Key> {
    if applicable == [] then []
    else AddKeys(KeyOrder(applicable[..|applicable| - 1], claimed), PluginKeys(applicable[|applicable| - 1], claimed))
  }

  function Score(cfg: Config, l: Link, applicable: seq<PluginOutcome>, claimed: Key, key: Key): real {
    Fuse(cfg, l, Kept(cfg, Pool(applicable, claimed, key)))
  }

  function Scorer(cfg: Config, l: Link, applicable: seq<PluginOutcome>, claimed: Key): Key -> real {
    key => Score(cfg, l, applicable, claimed, key)
  }

  // ----- the alternate -----

  /** The order of `sorted(keys, key=_key_repr)`. */
  predicate ReprLess(a: Key, b: Key) {
    LexLess(KeyRepr(a), KeyRepr(b))
  }

  function SortKeys(keys: seq<Key>): seq<Key> {
    Sort(ReprLess, keys)
  }

  /** `max(keys, key=score)`: the first maximal element. */
  function FirstMax(keys: seq<Key>, score: Key -> real): Key
    requires keys != []
  {
    if |keys| == 1 then keys[0]
    else
      var best, last := FirstMax(keys[..|keys| - 1], score), keys[|keys| - 1];
      if score(last) > score(best) then last else best
  }

  function Others(keys: seq<Key>, claimed: Key): seq<Key> {
    if keys == [] then []
    else
      var last := keys[|keys| - 1];
      Others(keys[..|keys| - 1], claimed) + if last == claimed then [] else [last]
  }

  function Alternate(keys: seq<Key>, claimed: Key, score: Key -> real): Option<Key> {
    var others := Others(keys, claimed);
    if others == [] then None
    else
      SortKeeps(ReprLess, others);
      Some(FirstMax(SortKeys(others), score))
  }

  // ----- the sheet -----

  function Exclusions(excluded: seq<Report>, key: Key): seq<Exclusion> {
    if excluded == [] then []
    else
      var last := excluded[|excluded| - 1];
      Exclusions(excluded[..|excluded| - 1], key) + [Exclusion(last.plugin, last.confidence, KeyRepr(key))]
  }

  function Dropper(cfg: Config, applicable: seq<PluginOutcome>, claimed: Key): Key -> seq<Exclusion> {
    key => Exclusions(Excluded(cfg, Pool(applicable, claimed, key)), key)
  }

  function AllExclusions(dropped: Key -> seq<Exclusion>, keys: seq<Key>): seq<Exclusion> {
    if keys == [] then [] else AllExclusions(dropped, keys[..|keys| - 1]) + dropped(keys[|keys| - 1])
  }

  /** `per_candidate`: a later key that prints alike overwrites an earlier one. */
  function PerCandidate(score: Key -> real, keys: seq<Key>): map<string, real> {
    if keys == [] then map[]
    else PerCandidate(score, keys[..|keys| - 1])[KeyRepr(keys[|keys| - 1]) := score(keys[|keys| - 1])]
  }

  function Sheet(cfg: Config, l: Link, results: seq<PluginOutcome>, claimedIds: set<nat>): ScoreSheet {
    var claimed, applicable := InSeries(claimedIds), Applicable(results);
    if applicable == [] then ScoreSheet(None, None, None, None, 0, map[], [])
    else
      var keys := KeyOrder(applicable, claimed);
      var alt := Alternate(keys, claimed, Scorer(cfg, l, applicable, claimed));
      ScoreSheet(
        Some(Score(cfg, l, applicable, claimed, claimed)),
        match alt case Some(k) => Some(Score(cfg, l, applicable, claimed, k)) case None => None,
        alt,
        match alt case Some(k) => Some(KindOf(k)) case None => None,
        |applicable|,
        PerCandidate(Scorer(cfg, l, applicable, claimed), keys),
        AllExclusions(Dropper(cfg, applicable, claimed), keys))
  }

  // ----- the loops -----

  /** One plugin's dict: first-met key order and the largest confidence of each key. */
  method PerPlugin(o: PluginOutcome, claimed: Key) returns (keys: seq<Key>, best: map<Key, real>)
    ensures keys == PluginKeys(o, claimed)
    ensures forall k :: k in best <==> k in keys
    ensures forall k | k in best :: best[k] == PluginScore(o, k)
  {
    keys, best := [], map[];
    for i := 0 to |o.scored|
      invariant keys == KeysIn(o.scored[..i])
      invariant forall k :: k in best <==> k in keys
      invariant forall k :: Best(o.scored[..i], k) == if k in best then Some(best[k]) else None
    {
      var s := o.scored[i];
      assert o.scored[..i + 1][..i] == o.scored[..i];
      var key := KeyFor(s.norm);
      if key.Some? {
        var k := key.value;
        var sofar := if k in best then best[k] else s.confidence;
        if k !in keys {
          keys := keys + [k];
        }
        best := best[k := if sofar >= s.confidence then sofar else s.confidence];
      }
    }
    assert o.scored[..|o.scored|] == o.scored;
    if claimed !in best {
      keys := keys + [claimed];
      best := best[claimed := 0.0];
    }
  }

  function At(pools: map<Key, seq<Report>>, k: Key): seq<Report> {
    if k in pools then pools[k] else []
  }

  /** `reports_by_key`: every applicable plugin's reports, appended to the pools of their keys. */
  method CollectReports(applicable: seq<PluginOutcome>, claimed: Key) returns (keys: seq<Key>, pools: map<Key, seq<Report>>)
    ensures keys == KeyOrder(applicable, claimed)
    ensures forall k :: k in pools <==> k in keys
    ensures forall k :: At(pools, k) == Pool(applicable, claimed, k)
  {
    keys, pools := [], map[];
    for i := 0 to |applicable|
      invariant keys == KeyOrder(applicable[..i], claimed)
      invariant forall k :: k in pools <==> k in keys
      invariant forall k :: At(pools, k) == Pool(applicable[..i], claimed, k)
    {
      assert applicable[..i + 1][..i] == applicable[..i];
      ghost var pools0 := pools;
      keys, pools := AddPlugin(keys, pools, applicable[i], claimed);
      forall k ensures At(pools, k) == Pool(applicable[..i + 1], claimed, k) {
        assert At(pools, k) == At(pools0, k) + PluginReports(applicable[i], claimed, k);
      }
    }
    assert applicable[..|applicable|] == applicable;
  }

  method AddPlugin(keys0: seq<Key>, pools0: map<Key, seq<Report>>, o: PluginOutcome, claimed: Key)
    returns (keys: seq<Key>, pools: map<Key, seq<Report>>)
    requires forall k :: k in pools0 <==> k in keys0
    ensures keys == AddKeys(keys0, PluginKeys(o, claimed)) && forall k :: k in pools <==> k in keys
    ensures forall k :: At(pools, k) == At(pools0, k) + PluginReports(o, claimed, k)
  {
    var pluginKeys, best := PerPlugin(o, claimed);
    PluginKeysDistinct(o, claimed);
    var report := (k: Key) => Report(o.name, o.weight, if k in best then best[k] else 0.0);
    keys, pools := AddReports(keys0, pools0, pluginKeys, report);
  }

  /** The reports one plugin adds to a pool. */
  function Added(keys: seq<Key>, report: Key -> Report, k: Key): seq<Report> {
    if k in keys then [report(k)] else []
  }

  /** The pools have grown by the plugin's reports on these keys. */
  ghost predicate Grown(pools0: map<Key, seq<Report>>, pools: map<Key, seq<Report>>, done: seq<Key>, report: Key -> Report) {
    forall k :: At(pools, k) == At(pools0, k) + Added(done, report, k)
  }

  lemma GrownByOne(pools0: map<Key, seq<Report>>, pools: map<Key, seq<Report>>, pools': map<Key, seq<Report>>,
                   done: seq<Key>, report: Key -> Report, key: Key)
    requires key !in done && Grown(pools0, pools, done, report)
    requires At(pools', key) == At(pools, key) + [report(key)] && forall k | k != key :: At(pools', k) == At(pools, k)
    ensures Grown(pools0, pools', done + [key], report)
  {
    forall k ensures At(pools', k) == At(pools0, k) + Added(done + [key], report, k) {
      AddedOneMore(done, key, report, k);
      assert At(pools, k) == At(pools0, k) + Added(done, report, k);
      OneMoreReport(At(pools0, k), Added(done, report, k), if k == key then [report(key)] else []);
    }
  }

  lemma AddedOneMore(done: seq<Key>, key: Key, report: Key -> Report, k: Key)
    requires key !in done
    ensures Added(done + [key], report, k) == Added(done, report, k) + if k == key then [report(key)] else []
  {
  }

  lemma OneMoreReport(was: seq<Report>, added: seq<Report>, more: seq<Report>)
    ensures was + added + more == was + (added + more)
    ensures more == [] ==> was + added + more == was + added
  {
  }

  lemma NextKey(pluginKeys: seq<Key>, j: nat)
    requires j < |pluginKeys| && Distinct(pluginKeys)
    ensures pluginKeys[..j + 1] == pluginKeys[..j] + [pluginKeys[j]] && pluginKeys[..j + 1][..j] == pluginKeys[..j]
    ensures pluginKeys[j] !in pluginKeys[..j]
  {
  }

  /** The inner loop: append one plugin's reports. */
  method AddReports(keys0: seq<Key>, pools0: map<Key, seq<Report>>, pluginKeys: seq<Key>, report: Key -> Report)
    returns (keys: seq<Key>, pools: map<Key, seq<Report>>)
    requires Distinct(pluginKeys) && forall k :: k in pools0 <==> k in keys0
    ensures keys == AddKeys(keys0, pluginKeys) && forall k :: k in pools <==> k in keys
    ensures forall k :: At(pools, k) == At(pools0, k) + Added(pluginKeys, report, k)
  {
    keys, pools := keys0, pools0;
    for j := 0 to |pluginKeys|
      invariant keys == AddKeys(keys0, pluginKeys[..j])
      invariant forall k :: k in pools <==> k in keys
      invariant Grown(pools0, pools, pluginKeys[..j], report)
    {
      NextKey(pluginKeys, j);
      ghost var before := pools;
      keys, pools := AddReport(keys, pools, pluginKeys[j], report(pluginKeys[j]));
      GrownByOne(pools0, before, pools, pluginKeys[..j], report, pluginKeys[j]);
    }
    assert pluginKeys[..|pluginKeys|] == pluginKeys;
  }

  /** `setdefault(key, []).append(report)`. */
  method AddReport(keys0: seq<Key>, pools0: map<Key, seq<Report>>, key: Key, r: Report)
    returns (keys: seq<Key>, pools: map<Key, seq<Report>>)
    requires forall k :: k in pools0 <==> k in keys0
    ensures keys == AddKey(keys0, Some(key)) && forall k :: k in pools <==> k in keys
    ensures At(pools, key) == At(pools0, key) + [r]
    ensures forall k | k != key :: At(pools, k) == At(pools0, k)
  {
    keys := if key in pools0 then keys0 else keys0 + [key];
    pools := pools0[key := At(pools0, key) + [r]];
  }

  ghost predicate Distinct(keys: seq<Key>) {
    forall i, j | 0 <= i < j < |keys| :: keys[i] != keys[j]
  }

  lemma {:induction false} KeysInDistinct(scored: seq<Scored>)
    ensures Distinct(KeysIn(scored))
    decreases |scored|
  {
    if scored != [] {
      KeysInDistinct(scored[..|scored| - 1]);
    }
  }

  lemma PluginKeysDistinct(o: PluginOutcome, claimed: Key)
    ensures Distinct(PluginKeys(o, claimed))
  {
    KeysInDistinct(o.scored);
  }

  method Aggregate(cfg: Config, l: Link, results: seq<PluginOutcome>, claimedIds: set<nat>) returns (sheet: ScoreSheet)
    ensures sheet == Sheet(cfg, l, results, claimedIds)
  {
    var claimed := InSeries(claimedIds);
    var applicable := SelectApplicable(results);
    if applicable == [] {
      return ScoreSheet(None, None, None, None, 0, map[], []);
    }
    var keys, pools := CollectReports(applicable, claimed);
    ClaimedIsPooled(applicable, claimed);
    var scores, excluded :=
      ScorePools(cfg, l, keys, pools, Scorer(cfg, l, applicable, claimed), Dropper(cfg, applicable, claimed));
    var alt := SelectAlternate(keys, claimed, scores, Scorer(cfg, l, applicable, claimed));
    var perCandidate := ListScores(keys, scores, Scorer(cfg, l, applicable, claimed));
    return ScoreSheet(Some(scores[claimed]),
                      if alt.Some? then Some(scores[alt.value]) else None,
                      alt,
                      if alt.Some? then Some(KindOf(alt.value)) else None,
                      |applicable|, perCandidate, excluded);
  }

  method SelectApplicable(results: seq<PluginOutcome>) returns (applicable: seq<PluginOutcome>)
    ensures applicable == Applicable(results)
  {
    applicable := [];
    for i := 0 to |results|
      invariant applicable == Applicable(results[..i])
    {
      assert results[..i + 1][..i] == results[..i];
      if results[i].status == Ok {
        applicable := applicable + [results[i]];
      }
    }
    assert results[..|results|] == results;
  }

  method SelectAlternate(keys: seq<Key>, claimed: Key, scores: map<Key, real>, ghost score: Key -> real)
    returns (alt: Option<Key>)
    requires forall k | k in keys :: k in scores && scores[k] == score(k)
    ensures alt == Alternate(keys, claimed, score)
    ensures alt.Some? ==> alt.value in keys
  {
    var others := ListOthers(keys, claimed);
    if others == [] {
      return None;
    }
    SortKeeps(ReprLess, others);
    SortHas(ReprLess, others);
    var best := MaxBy(SortKeys(others), scores, score);
    return Some(best);
  }

  method ListOthers(keys: seq<Key>, claimed: Key) returns (others: seq<Key>)
    ensures others == Others(keys, claimed)
    ensures forall k | k in others :: k in keys
  {
    others := [];
    for i := 0 to |keys|
      invariant others == Others(keys[..i], claimed)
      invariant forall k | k in others :: k in keys
    {
      assert keys[..i + 1][..i] == keys[..i];
      if keys[i] != claimed {
        others := others + [keys[i]];
      }
    }
    assert keys[..|keys|] == keys;
  }

  method MaxBy(sorted: seq<Key>, scores: map<Key, real>, ghost score: Key -> real) returns (best: Key)
    requires sorted != [] && forall k | k in sorted :: k in scores && scores[k] == score(k)
    ensures best == FirstMax(sorted, score) && best in sorted
  {
    best := sorted[0];
    for i := 1 to |sorted|
      invariant best in sorted && best == FirstMax(sorted[..i], score)
    {
      assert sorted[..i + 1][..i] == sorted[..i];
      assert sorted[i] in sorted;
      if scores[sorted[i]] > scores[best] {
        best := sorted[i];
      }
    }
    assert sorted[..|sorted|] == sorted;
  }

  method ScorePools(cfg: Config, l: Link, keys: seq<Key>, pools: map<Key, seq<Report>>,
                    ghost score: Key -> real, ghost dropped: Key -> seq<Exclusion>)
    returns (scores: map<Key, real>, excluded: seq<Exclusion>)
    requires forall k | k in keys :: k in pools && score(k) == Fuse(cfg, l, Kept(cfg, pools[k]))
    requires forall k | k in keys :: dropped(k) == Exclusions(Excluded(cfg, pools[k]), k)
    ensures forall k | k in keys :: k in scores && scores[k] == score(k)
    ensures excluded == AllExclusions(dropped, keys)
  {
    scores, excluded := map[], [];
    for i := 0 to |keys|
      invariant forall j | 0 <= j < i :: keys[j] in scores && scores[keys[j]] == score(keys[j])
      invariant excluded == AllExclusions(dropped, keys[..i])
    {
      var key := keys[i];
      assert keys[..i + 1][..i] == keys[..i] && key in keys;
      var value, more := ScorePool(cfg, l, key, pools[key]);
      scores := scores[key := value];
      excluded := excluded + more;
    }
    assert keys[..|keys|] == keys;
  }

  method ScorePool(cfg: Config, l: Link, key: Key, pool: seq<Report>) returns (value: real, more: seq<Exclusion>)
    ensures value == Fuse(cfg, l, Kept(cfg, pool)) && more == Exclusions(Excluded(cfg, pool), key)
  {
    var kept, low := RejectOutliers(cfg, pool);
    value := ComputeFuse(cfg, l, kept);
    more := ListExclusions(low, key);
  }

  method ListScores(keys: seq<Key>, scores: map<Key, real>, ghost score: Key -> real) returns (perCandidate: map<string, real>)
    requires forall k | k in keys :: k in scores && scores[k] == score(k)
    ensures perCandidate == PerCandidate(score, keys)
  {
    perCandidate := map[];
    for i := 0 to |keys|
      invariant perCandidate == PerCandidate(score, keys[..i])
    {
      assert keys[..i + 1][..i] == keys[..i] && keys[i] in keys;
      perCandidate := perCandidate[KeyRepr(keys[i]) := scores[keys[i]]];
    }
    assert keys[..|keys|] == keys;
  }

  method ListExclusions(dropped: seq<Report>, key: Key) returns (more: seq<Exclusion>)
    ensures more == Exclusions(dropped, key)
  {
    more := [];
    for j := 0 to |dropped|
      invariant more == Exclusions(dropped[..j], key)
    {
      assert dropped[..j + 1][..j] == dropped[..j];
      more := more + [Exclusion(dropped[j].plugin, dropped[j].confidence, KeyRepr(key))];
    }
    assert dropped[..|dropped|] == dropped;
  }

  lemma {:induction false} AddKeysHas(keys: seq<Key>, more: seq<Key>)
    ensures forall k :: k in AddKeys(keys, more) <==> k in keys || k in more
    decreases |more|
  {
    if more != [] {
      AddKeysHas(keys, more[..|more| - 1]);
      assert more == more[..|more| - 1] + [more[|more| - 1]];
    }
  }

  lemma ClaimedIsPooled(applicable: seq<PluginOutcome>, claimed: Key)
    requires applicable != []
    ensures claimed in KeyOrder(applicable, claimed)
  {
    AddKeysHas(KeyOrder(applicable[..|applicable| - 1], claimed), PluginKeys(applicable[|applicable| - 1], claimed));
  }
}
