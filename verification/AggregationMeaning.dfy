/** What the loops of `aggregate` mean, and that the order of plugins and candidates does not matter. */
module AggregationMeaning {
  import opened Options
  import opened Candidates
  import opened Fusion
  import opened Aggregation
  import opened StableSort

  // ----- pools -----

  predicate Reported(o: PluginOutcome, key: Key) {
    exists s | s in o.scored :: Hits(s, key)
  }

  lemma {:induction false} KeysInMeaning(scored: seq<Scored>, key: Key)
    ensures key in KeysIn(scored) <==> exists s :: s in scored && Hits(s, key)
    decreases |scored|
  {
    if scored != [] {
      var init, last := scored[..|scored| - 1], scored[|scored| - 1];
      assert scored == init + [last];
      KeysInMeaning(init, key);
      if Hits(last, key) {
        assert last in scored;
      }
    }
  }

  /** The plugin's own report on a key is its maximum over the candidates with that key. */
  lemma {:induction false} BestMeaning(scored: seq<Scored>, key: Key)
    ensures Best(scored, key).Some? <==> exists s :: s in scored && Hits(s, key)
    ensures forall s | s in scored && Hits(s, key) :: Best(scored, key).Some? && s.confidence <= Best(scored, key).value
    ensures Best(scored, key).Some? ==>
              exists s :: s in scored && Hits(s, key) && s.confidence == Best(scored, key).value
    decreases |scored|
  {
    if scored != [] {
      var init, last := scored[..|scored| - 1], scored[|scored| - 1];
      assert scored == init + [last];
      BestMeaning(init, key);
      if Hits(last, key) {
        assert last in scored;
      }
    }
  }

  /** One report per plugin that reported the key; on the claimed key one per applicable plugin,
      which is 0 where the plugin said nothing about it. */
  lemma PluginReportsMeaning(o: PluginOutcome, claimed: Key, key: Key)
    ensures PluginReports(o, claimed, key) ==
            if Reported(o, key) || key == claimed then [Report(o.name, o.weight, PluginScore(o, key))] else []
    ensures Reported(o, key) ==>
              && (forall s | s in o.scored && Hits(s, key) :: s.confidence <= PluginScore(o, key))
              && (exists s :: s in o.scored && Hits(s, key) && s.confidence == PluginScore(o, key))
    ensures !Reported(o, key) ==> PluginScore(o, key) == 0.0
  {
    KeysInMeaning(o.scored, key);
    BestMeaning(o.scored, key);
  }

  ghost predicate OnSheet(applicable: seq<PluginOutcome>, claimed: Key, key: Key) {
    exists o | o in applicable :: Reported(o, key) || key == claimed
  }

  function ReportOf(o: PluginOutcome, key: Key): Report {
    Report(o.name, o.weight, PluginScore(o, key))
  }

  function Reporters(applicable: seq<PluginOutcome>, claimed: Key, key: Key): seq<PluginOutcome> {
    if applicable == [] then []
    else
      var last := applicable[|applicable| - 1];
      Reporters(applicable[..|applicable| - 1], claimed, key) + if Reported(last, key) || key == claimed then [last] else []
  }

  lemma {:induction false} ReportersMeaning(applicable: seq<PluginOutcome>, claimed: Key, key: Key)
    ensures key == claimed ==> Reporters(applicable, claimed, key) == applicable
    ensures forall o :: o in Reporters(applicable, claimed, key) <==> o in applicable && (Reported(o, key) || key == claimed)
    decreases |applicable|
  {
    if applicable != [] {
      assert applicable == applicable[..|applicable| - 1] + [applicable[|applicable| - 1]];
      ReportersMeaning(applicable[..|applicable| - 1], claimed, key);
    }
  }

  /** `aggregate` pools exactly: the reporters of the key, in plugin order, each with its own maximum
      (0 where the claimed key is missing). */
  lemma {:induction false} PoolMeaning(applicable: seq<PluginOutcome>, claimed: Key, key: Key)
    ensures |Pool(applicable, claimed, key)| == |Reporters(applicable, claimed, key)|
    ensures forall i | 0 <= i < |Pool(applicable, claimed, key)| ::
              Pool(applicable, claimed, key)[i] == ReportOf(Reporters(applicable, claimed, key)[i], key)
    decreases |applicable|
  {
    if applicable != [] {
      PoolMeaning(applicable[..|applicable| - 1], claimed, key);
      PluginReportsMeaning(applicable[|applicable| - 1], claimed, key);
    }
  }

  lemma {:induction false} ApplicableMeaning(results: seq<PluginOutcome>, o: PluginOutcome)
    ensures multiset(Applicable(results))[o] == if o.status == Ok then multiset(results)[o] else 0
    ensures o in Applicable(results) <==> o in results && o.status == Ok
    decreases |results|
  {
    if results != [] {
      assert results == results[..|results| - 1] + [results[|results| - 1]];
      ApplicableMeaning(results[..|results| - 1], o);
    }
  }

  lemma {:induction false} KeyOrderMeaning(applicable: seq<PluginOutcome>, claimed: Key, key: Key)
    ensures key in KeyOrder(applicable, claimed) <==> OnSheet(applicable, claimed, key)
    decreases |applicable|
  {
    if applicable != [] {
      var init, last := applicable[..|applicable| - 1], applicable[|applicable| - 1];
      assert applicable == init + [last];
      KeyOrderMeaning(init, claimed, key);
      AddKeysHas(KeyOrder(init, claimed), PluginKeys(last, claimed));
      KeysInMeaning(last.scored, key);
      if Reported(last, key) || key == claimed {
        assert last in applicable;
      }
    }
  }

  // ----- the alternate is the best other key -----

  ghost predicate Outranks(score: Key -> real, a: Key, b: Key) {
    score(a) > score(b) || (score(a) == score(b) && ReprLess(a, b))
  }

  ghost predicate IsBest(keys: set<Key>, score: Key -> real, k: Key) {
    k in keys && forall other | other in keys && other != k :: Outranks(score, k, other)
  }

  lemma BestIsUnique(keys: set<Key>, score: Key -> real, a: Key, b: Key)
    requires IsBest(keys, score, a) && IsBest(keys, score, b)
    ensures a == b
  {
    if a != b {
      assert Outranks(score, a, b) && Outranks(score, b, a);
      LexTotal(KeyRepr(a), KeyRepr(b));
    }
  }

  /** No two of the keys print alike. */
  ghost predicate PrintApart(keys: set<Key>) {
    forall a, b | a in keys && b in keys && a != b :: KeyRepr(a) != KeyRepr(b)
  }

  lemma KeysSeparated(keys: seq<Key>)
    requires Distinct(keys) && PrintApart(KeySet(keys))
    ensures Separated(ReprLess, keys) && Transitive(ReprLess)
  {
    forall i, j | 0 <= i < j < |keys| ensures ReprLess(keys[i], keys[j]) || ReprLess(keys[j], keys[i]) {
      assert keys[i] in KeySet(keys) && keys[j] in KeySet(keys);
      LexTotal(KeyRepr(keys[i]), KeyRepr(keys[j]));
    }
    forall a, b, c | ReprLess(a, b) && ReprLess(b, c) ensures ReprLess(a, c) {
      LexTransitive(KeyRepr(a), KeyRepr(b), KeyRepr(c));
    }
  }

  /** However the keys are ordered, the first maximal one has the highest score. */
  lemma {:induction false} FirstMaxIsHighest(keys: seq<Key>, score: Key -> real)
    requires keys != []
    ensures FirstMax(keys, score) in keys && forall k | k in keys :: score(k) <= score(FirstMax(keys, score))
    decreases |keys|
  {
    if |keys| > 1 {
      assert keys == keys[..|keys| - 1] + [keys[|keys| - 1]];
      FirstMaxIsHighest(keys[..|keys| - 1], score);
    }
  }

  lemma {:induction false} FirstMaxIsBest(keys: seq<Key>, score: Key -> real)
    requires keys != [] && Ascending(ReprLess, keys)
    ensures FirstMax(keys, score) in keys
    ensures forall k | k in keys && k != FirstMax(keys, score) :: Outranks(score, FirstMax(keys, score), k)
    decreases |keys|
  {
    if |keys| > 1 {
      var init, last := keys[..|keys| - 1], keys[|keys| - 1];
      assert keys == init + [last];
      FirstMaxIsBest(init, score);
      var best := FirstMax(init, score);
      assert ReprLess(best, last);
      forall k | k in keys && k != FirstMax(keys, score) ensures Outranks(score, FirstMax(keys, score), k) {
        if score(last) > score(best) {
          assert k in init && (k == best || Outranks(score, best, k));
        }
      }
    }
  }

  lemma {:induction false} OthersMeaning(keys: seq<Key>, claimed: Key)
    requires Distinct(keys)
    ensures Distinct(Others(keys, claimed))
    ensures forall k :: k in Others(keys, claimed) <==> k in keys && k != claimed
    decreases |keys|
  {
    if keys != [] {
      var init, last := keys[..|keys| - 1], keys[|keys| - 1];
      assert keys == init + [last] && last !in init;
      assert Distinct(init);
      OthersMeaning(init, claimed);
    }
  }

  function KeySet(keys: seq<Key>): set<Key> {
    set k | k in keys
  }

  lemma OthersAre(keys: seq<Key>, claimed: Key)
    requires Distinct(keys)
    ensures KeySet(Others(keys, claimed)) == KeySet(keys) - {claimed} && Distinct(Others(keys, claimed))
    ensures Others(keys, claimed) == [] <==> KeySet(keys) - {claimed} == {}
  {
    var others := Others(keys, claimed);
    OthersMeaning(keys, claimed);
    assert KeySet(keys) - {claimed} == KeySet(others);
    if others == [] {
      assert KeySet(others) == {};
    } else {
      assert others[0] in KeySet(others);
    }
  }

  /** There is an alternate exactly if some key but the claimed one was reported, and it has the highest
      score of all of those. */
  lemma AlternateIsHighest(keys: seq<Key>, claimed: Key, score: Key -> real)
    requires Distinct(keys)
    ensures Alternate(keys, claimed, score).None? <==> KeySet(keys) - {claimed} == {}
    ensures Alternate(keys, claimed, score).Some? ==>
              var alt := Alternate(keys, claimed, score).value;
              alt in KeySet(keys) - {claimed} && forall k | k in KeySet(keys) - {claimed} :: score(k) <= score(alt)
  {
    var others := Others(keys, claimed);
    OthersAre(keys, claimed);
    if others != [] {
      SortKeeps(ReprLess, others);
      SortHas(ReprLess, others);
      FirstMaxIsHighest(SortKeys(others), score);
      assert FirstMax(SortKeys(others), score) in KeySet(others);
      assert forall k | k in KeySet(others) :: k in SortKeys(others);
    }
  }

  /** If the other keys print differently, ties go to the one that prints first. */
  lemma AlternateMeaning(keys: seq<Key>, claimed: Key, score: Key -> real)
    requires Distinct(keys) && PrintApart(KeySet(keys) - {claimed})
    ensures Alternate(keys, claimed, score).None? <==> KeySet(keys) - {claimed} == {}
    ensures Alternate(keys, claimed, score).Some? ==>
              IsBest(KeySet(keys) - {claimed}, score, Alternate(keys, claimed, score).value)
  {
    var others := Others(keys, claimed);
    OthersAre(keys, claimed);
    if others != [] {
      KeysSeparated(others);
      SortAscends(ReprLess, others);
      SortKeeps(ReprLess, others);
      SortHas(ReprLess, others);
      FirstMaxIsBest(SortKeys(others), score);
      assert forall k | k in KeySet(others) :: k in SortKeys(others);
    }
  }

  /** The premise is needed: of two tied keys that print alike the one met first is the alternate. */
  lemma TiesThatPrintAlike(a: Key, b: Key, claimed: Key, score: Key -> real)
    requires a != b && a != claimed && b != claimed && KeyRepr(a) == KeyRepr(b) && score(a) == score(b)
    ensures Alternate([a, b, claimed], claimed, score) == Some(a)
    ensures Alternate([b, a, claimed], claimed, score) == Some(b)
  {
    FirstMetWins(a, b, claimed, score);
    FirstMetWins(b, a, claimed, score);
  }

  lemma FirstMetWins(a: Key, b: Key, claimed: Key, score: Key -> real)
    requires a != claimed && b != claimed && KeyRepr(a) == KeyRepr(b) && score(a) == score(b)
    ensures Alternate([a, b, claimed], claimed, score) == Some(a)
  {
    assert !ReprLess(b, a) by {
      LexIrreflexive(KeyRepr(a));
    }
    SortPair(ReprLess, a, b);
    OthersOfThree(a, b, claimed);
    FirstMaxOfTwo(a, b, score);
  }

  lemma OthersOfThree(a: Key, b: Key, claimed: Key)
    requires a != claimed && b != claimed
    ensures Others([a, b, claimed], claimed) == [a, b]
  {
    assert [a, b, claimed][..2] == [a, b] && [a, b][..1] == [a] && [a][..0] == [];
    assert Others([], claimed) == [] && Others([a], claimed) == [a] && Others([a, b], claimed) == [a, b];
  }

  lemma FirstMaxOfTwo(a: Key, b: Key, score: Key -> real)
    requires score(b) <= score(a)
    ensures FirstMax([a, b], score) == a
  {
    assert [a, b][..1] == [a];
  }

  // ----- order independence -----

  function Flat<T, U>(f: T -> seq<U>, s: seq<T>): seq<U> {
    if s == [] then [] else Flat(f, s[..|s| - 1]) + f(s[|s| - 1])
  }

  lemma {:induction false} FlatConcat<T, U>(f: T -> seq<U>, a: seq<T>, b: seq<T>)
    ensures Flat(f, a + b) == Flat(f, a) + Flat(f, b)
    decreases |b|
  {
    if b == [] {
      assert a + b == a;
    } else {
      FlatConcat(f, a, b[..|b| - 1]);
      assert (a + b)[..|a + b| - 1] == a + b[..|b| - 1];
    }
  }

  lemma FlatSnoc<T, U>(f: T -> seq<U>, s: seq<T>, x: T)
    ensures Flat(f, s + [x]) == Flat(f, s) + f(x)
  {
    assert (s + [x])[..|s|] == s;
  }

  lemma FlatRemove<T, U>(f: T -> seq<U>, before: seq<T>, x: T, after: seq<T>)
    ensures multiset(Flat(f, before + [x] + after)) == multiset(Flat(f, before + after)) + multiset(f(x))
  {
    FlatConcat(f, before + [x], after);
    FlatSnoc(f, before, x);
    FlatConcat(f, before, after);
  }

  /** The last element of one sequence, found in a permutation of it. */
  lemma FindLast<T>(a: seq<T>, b: seq<T>) returns (before: seq<T>, after: seq<T>)
    requires multiset(a) == multiset(b) && a != []
    ensures b == before + [a[|a| - 1]] + after
    ensures multiset(a[..|a| - 1]) == multiset(before + after)
  {
    var n := |a| - 1;
    assert a[n] in multiset(b);
    var i :| 0 <= i < |b| && b[i] == a[n];
    before, after := b[..i], b[i + 1..];
    WithoutMultiset(a, n);
    WithoutMultiset(b, i);
    assert Without(a, n) == a[..n];
    SameAfterRemoval(multiset(a[..n]), multiset(Without(b, i)), a[n]);
  }

  lemma {:induction false} FlatPermute<T, U>(f: T -> seq<U>, a: seq<T>, b: seq<T>)
    requires multiset(a) == multiset(b)
    ensures multiset(Flat(f, a)) == multiset(Flat(f, b))
    decreases |a|
  {
    if a == [] {
      assert |multiset(b)| == |b|;
    } else {
      var before, after := FindLast(a, b);
      FlatPermute(f, a[..|a| - 1], before + after);
      FlatRemove(f, before, a[|a| - 1], after);
    }
  }

  function ReportsOn(claimed: Key, key: Key): PluginOutcome -> seq<Report> {
    o => PluginReports(o, claimed, key)
  }

  lemma {:induction false} PoolIsFlat(applicable: seq<PluginOutcome>, claimed: Key, key: Key)
    ensures Pool(applicable, claimed, key) == Flat(ReportsOn(claimed, key), applicable)
    decreases |applicable|
  {
    if applicable != [] {
      PoolIsFlat(applicable[..|applicable| - 1], claimed, key);
    }
  }

  lemma PoolPermute(a: seq<PluginOutcome>, b: seq<PluginOutcome>, claimed: Key, key: Key)
    requires multiset(a) == multiset(b)
    ensures multiset(Pool(a, claimed, key)) == multiset(Pool(b, claimed, key))
  {
    PoolIsFlat(a, claimed, key);
    PoolIsFlat(b, claimed, key);
    FlatPermute(ReportsOn(claimed, key), a, b);
  }

  lemma {:induction false} KeyOrderDistinct(applicable: seq<PluginOutcome>, claimed: Key)
    ensures Distinct(KeyOrder(applicable, claimed))
    decreases |applicable|
  {
    if applicable != [] {
      KeyOrderDistinct(applicable[..|applicable| - 1], claimed);
      AddKeysDistinct(KeyOrder(applicable[..|applicable| - 1], claimed), PluginKeys(applicable[|applicable| - 1], claimed));
    }
  }

  lemma {:induction false} AddKeysDistinct(keys: seq<Key>, more: seq<Key>)
    requires Distinct(keys)
    ensures Distinct(AddKeys(keys, more))
    decreases |more|
  {
    if more != [] {
      AddKeysDistinct(keys, more[..|more| - 1]);
    }
  }

  lemma {:induction false} PerCandidateMeaning(score: Key -> real, keys: seq<Key>)
    requires Distinct(keys) && PrintApart(KeySet(keys))
    ensures forall k | k in keys :: KeyRepr(k) in PerCandidate(score, keys) && PerCandidate(score, keys)[KeyRepr(k)] == score(k)
    ensures forall name | name in PerCandidate(score, keys) :: exists k :: k in keys && KeyRepr(k) == name
    decreases |keys|
  {
    if keys != [] {
      var init, last := keys[..|keys| - 1], keys[|keys| - 1];
      assert keys == init + [last] && last !in init;
      assert KeySet(init) <= KeySet(keys) && last in KeySet(keys);
      PerCandidateMeaning(score, init);
      forall k | k in init ensures KeyRepr(k) != KeyRepr(last) {
        assert k in KeySet(keys);
      }
    }
  }

  lemma SameAltScore(keys: seq<Key>, keys': seq<Key>, claimed: Key, score: Key -> real, score': Key -> real)
    requires Distinct(keys) && Distinct(keys')
    requires KeySet(keys) == KeySet(keys') && forall k :: score(k) == score'(k)
    ensures var a, b := Alternate(keys, claimed, score), Alternate(keys', claimed, score');
            (a.Some? <==> b.Some?) && (a.Some? ==> score(a.value) == score(b.value))
  {
    AlternateIsHighest(keys, claimed, score);
    AlternateIsHighest(keys', claimed, score');
  }

  lemma SameAlternate(keys: seq<Key>, keys': seq<Key>, claimed: Key, score: Key -> real, score': Key -> real)
    requires Distinct(keys) && Distinct(keys') && PrintApart(KeySet(keys) - {claimed})
    requires KeySet(keys) == KeySet(keys') && forall k :: score(k) == score'(k)
    ensures Alternate(keys, claimed, score) == Alternate(keys', claimed, score')
  {
    AlternateMeaning(keys, claimed, score);
    AlternateMeaning(keys', claimed, score');
    var a, b := Alternate(keys, claimed, score), Alternate(keys', claimed, score');
    var others := KeySet(keys) - {claimed};
    if a.Some? {
      forall other | other in others && other != b.value ensures Outranks(score, b.value, other) {
        assert Outranks(score', b.value, other);
      }
      BestIsUnique(others, score, a.value, b.value);
    }
  }

  lemma SamePerCandidate(keys: seq<Key>, keys': seq<Key>, score: Key -> real, score': Key -> real)
    requires Distinct(keys) && Distinct(keys') && PrintApart(KeySet(keys))
    requires KeySet(keys) == KeySet(keys') && forall k :: score(k) == score'(k)
    ensures PerCandidate(score, keys) == PerCandidate(score', keys')
  {
    PerCandidateMeaning(score, keys);
    PerCandidateMeaning(score', keys');
    SameMap(PerCandidate(score, keys), PerCandidate(score', keys'), keys, keys', score, score');
  }

  lemma SameMap(m: map<string, real>, m': map<string, real>, keys: seq<Key>, keys': seq<Key>, score: Key -> real, score': Key -> real)
    requires KeySet(keys) == KeySet(keys') && forall k :: score(k) == score'(k)
    requires forall k | k in keys :: KeyRepr(k) in m && m[KeyRepr(k)] == score(k)
    requires forall k | k in keys' :: KeyRepr(k) in m' && m'[KeyRepr(k)] == score'(k)
    requires forall name | name in m :: exists k :: k in keys && KeyRepr(k) == name
    requires forall name | name in m' :: exists k :: k in keys' && KeyRepr(k) == name
    ensures m == m'
  {
    forall name | name in m ensures name in m' && m[name] == m'[name] {
      var k :| k in keys && KeyRepr(k) == name;
      assert k in KeySet(keys');
    }
    forall name | name in m' ensures name in m {
      var k :| k in keys' && KeyRepr(k) == name;
      assert k in KeySet(keys);
    }
  }

  /** The keys of a sheet. */
  function SheetKeys(results: seq<PluginOutcome>, claimedIds: set<nat>): set<Key> {
    KeySet(KeyOrder(Applicable(results), InSeries(claimedIds)))
  }

  /** No imdb id in any candidate of an ok plugin holds a comma. */
  ghost predicate CommaFreeResults(results: seq<PluginOutcome>) {
    forall o | o in Applicable(results) :: forall s | s in o.scored :: forall k | KeyFor(s.norm) == Some(k) :: Printable(k)
  }

  /** A sheet without commas in imdb ids has keys that print differently. */
  lemma CommaFreeKeysPrintApart(results: seq<PluginOutcome>, claimedIds: set<nat>)
    requires CommaFreeResults(results)
    ensures PrintApart(SheetKeys(results, claimedIds))
  {
    var applicable, claimed := Applicable(results), InSeries(claimedIds);
    forall k | k in KeyOrder(applicable, claimed) ensures Printable(k) {
      KeyOrderMeaning(applicable, claimed, k);
      var o :| o in applicable && (Reported(o, k) || k == claimed);
      if k != claimed {
        var s :| s in o.scored && Hits(s, k);
        assert KeyFor(s.norm) == Some(k);
      }
    }
    forall a, b | a in SheetKeys(results, claimedIds) && b in SheetKeys(results, claimedIds) && a != b
      ensures KeyRepr(a) != KeyRepr(b)
    {
      if KeyRepr(a) == KeyRepr(b) {
        KeyReprInjective(a, b);
      }
    }
  }

  /** The numbers of two sheets. */
  ghost predicate SameNumbers(a: ScoreSheet, b: ScoreSheet) {
    a.sClaimed == b.sClaimed && a.sAlt == b.sAlt && a.applicableCount == b.applicableCount
  }

  /** Everything `route` and the evidence view read from the sheet. */
  ghost predicate SameVerdict(a: ScoreSheet, b: ScoreSheet) {
    SameNumbers(a, b) && a.altKey == b.altKey && a.altKind == b.altKind && a.perCandidate == b.perCandidate
  }

  /** The numbers never depend on how keys print; the rest does not if the sheet's keys print differently. */
  ghost predicate SameUpToPrinting(a: ScoreSheet, b: ScoreSheet, keys: set<Key>, claimed: Key) {
    && SameNumbers(a, b)
    && (PrintApart(keys - {claimed}) ==> a.altKey == b.altKey && a.altKind == b.altKind)
    && (PrintApart(keys) ==> SameVerdict(a, b))
  }

  lemma SameKeys(a: seq<PluginOutcome>, b: seq<PluginOutcome>, claimed: Key)
    requires forall key :: OnSheet(a, claimed, key) <==> OnSheet(b, claimed, key)
    ensures KeySet(KeyOrder(a, claimed)) == KeySet(KeyOrder(b, claimed))
  {
    forall key ensures key in KeyOrder(a, claimed) <==> key in KeyOrder(b, claimed) {
      KeyOrderMeaning(a, claimed, key);
      KeyOrderMeaning(b, claimed, key);
    }
  }

  /** The same keys, scored alike. */
  ghost predicate SameScores(cfg: Config, l: Link, a: seq<PluginOutcome>, b: seq<PluginOutcome>, claimed: Key) {
    && |a| == |b|
    && KeySet(KeyOrder(a, claimed)) == KeySet(KeyOrder(b, claimed))
    && forall k :: Score(cfg, l, a, claimed, k) == Score(cfg, l, b, claimed, k)
  }

  /** A sheet, told from its keys in order and their scores. */
  ghost predicate IsSheet(sheet: ScoreSheet, n: nat, keys: seq<Key>, claimed: Key, score: Key -> real) {
    if n == 0 then sheet == ScoreSheet(None, None, None, None, 0, map[], [])
    else
      var alt := Alternate(keys, claimed, score);
      && sheet.sClaimed == Some(score(claimed)) && sheet.applicableCount == n
      && sheet.altKey == alt && sheet.sAlt == (match alt case Some(k) => Some(score(k)) case None => None)
      && sheet.altKind == (match alt case Some(k) => Some(KindOf(k)) case None => None)
      && sheet.perCandidate == PerCandidate(score, keys)
  }

  lemma SheetIsSheet(cfg: Config, l: Link, rs: seq<PluginOutcome>, claimedIds: set<nat>)
    ensures var a, claimed := Applicable(rs), InSeries(claimedIds);
            IsSheet(Sheet(cfg, l, rs, claimedIds), |a|, KeyOrder(a, claimed), claimed, Scorer(cfg, l, a, claimed))
  {
  }

  lemma SameSheet(cfg: Config, l: Link, rs: seq<PluginOutcome>, rs': seq<PluginOutcome>, claimedIds: set<nat>)
    ensures SameScores(cfg, l, Applicable(rs), Applicable(rs'), InSeries(claimedIds)) ==>
              SameUpToPrinting(Sheet(cfg, l, rs, claimedIds), Sheet(cfg, l, rs', claimedIds),
                               SheetKeys(rs, claimedIds), InSeries(claimedIds))
  {
    var claimed, a, b := InSeries(claimedIds), Applicable(rs), Applicable(rs');
    if SameScores(cfg, l, a, b, claimed) {
      SheetIsSheet(cfg, l, rs, claimedIds);
      SheetIsSheet(cfg, l, rs', claimedIds);
      KeyOrderDistinct(a, claimed);
      KeyOrderDistinct(b, claimed);
      SheetsAgree(Sheet(cfg, l, rs, claimedIds), Sheet(cfg, l, rs', claimedIds), |a|, KeyOrder(a, claimed), KeyOrder(b, claimed),
                  claimed, Scorer(cfg, l, a, claimed), Scorer(cfg, l, b, claimed));
    }
  }

  lemma SheetsAgree(sheet: ScoreSheet, sheet': ScoreSheet, n: nat, keys: seq<Key>, keys': seq<Key>,
                    claimed: Key, score: Key -> real, score': Key -> real)
    requires Distinct(keys) && Distinct(keys')
    requires KeySet(keys) == KeySet(keys') && forall k :: score(k) == score'(k)
    ensures IsSheet(sheet, n, keys, claimed, score) && IsSheet(sheet', n, keys', claimed, score') ==>
              SameUpToPrinting(sheet, sheet', KeySet(keys), claimed)
  {
    SameBy(keys, keys', claimed, score, score');
  }

  lemma SameBy(keys: seq<Key>, keys': seq<Key>, claimed: Key, score: Key -> real, score': Key -> real)
    requires Distinct(keys) && Distinct(keys')
    requires KeySet(keys) == KeySet(keys') && forall k :: score(k) == score'(k)
    ensures var a, b := Alternate(keys, claimed, score), Alternate(keys', claimed, score');
            && (a.Some? <==> b.Some?) && (a.Some? ==> score(a.value) == score'(b.value))
            && (PrintApart(KeySet(keys) - {claimed}) ==> a == b)
    ensures PrintApart(KeySet(keys)) ==>
              PrintApart(KeySet(keys) - {claimed}) && PerCandidate(score, keys) == PerCandidate(score', keys')
  {
    SameAltScore(keys, keys', claimed, score, score');
    if PrintApart(KeySet(keys) - {claimed}) {
      SameAlternate(keys, keys', claimed, score, score');
    }
    if PrintApart(KeySet(keys)) {
      SamePerCandidate(keys, keys', score, score');
    }
  }

  /** The order in which the plugins ran does not matter: not to the numbers, and not to the alternate and
      the per-candidate scores as long as no two keys of the sheet print alike. */
  lemma PluginOrderDoesNotMatter(cfg: Config, l: Link, rs: seq<PluginOutcome>, rs': seq<PluginOutcome>, claimedIds: set<nat>)
    requires multiset(rs) == multiset(rs')
    ensures SameUpToPrinting(Sheet(cfg, l, rs, claimedIds), Sheet(cfg, l, rs', claimedIds),
                             SheetKeys(rs, claimedIds), InSeries(claimedIds))
  {
    var claimed, a, b := InSeries(claimedIds), Applicable(rs), Applicable(rs');
    forall o ensures multiset(a)[o] == multiset(b)[o] {
      ApplicableMeaning(rs, o);
      ApplicableMeaning(rs', o);
    }
    assert multiset(a) == multiset(b);
    assert |multiset(a)| == |a| && |multiset(b)| == |b|;
    assert forall o :: o in a <==> o in b by {
      assert forall o :: o in a <==> o in multiset(a);
      assert forall o :: o in b <==> o in multiset(b);
    }
    SameKeys(a, b, claimed);
    forall k ensures Score(cfg, l, a, claimed, k) == Score(cfg, l, b, claimed, k) {
      PoolPermute(a, b, claimed, k);
      KeptPermute(cfg, Pool(a, claimed, k), Pool(b, claimed, k));
      FusePermute(cfg, l, Kept(cfg, Pool(a, claimed, k)), Kept(cfg, Pool(b, claimed, k)));
    }
    assert SameScores(cfg, l, a, b, claimed);
    SameSheet(cfg, l, rs, rs', claimedIds);
  }

  /** The same plugin run with its candidates listed in another order. */
  ghost predicate Shuffled(o: PluginOutcome, o': PluginOutcome) {
    o.name == o'.name && o.weight == o'.weight && o.status == o'.status && multiset(o.scored) == multiset(o'.scored)
  }

  lemma ShuffledReports(o: PluginOutcome, o': PluginOutcome, claimed: Key, key: Key)
    requires Shuffled(o, o')
    ensures Reported(o, key) <==> Reported(o', key)
    ensures PluginReports(o, claimed, key) == PluginReports(o', claimed, key)
  {
    assert forall s :: s in o.scored <==> s in o'.scored by {
      assert forall s :: s in o.scored <==> s in multiset(o.scored);
      assert forall s :: s in o'.scored <==> s in multiset(o'.scored);
    }
    PluginReportsMeaning(o, claimed, key);
    PluginReportsMeaning(o', claimed, key);
  }

  lemma {:induction false} ShuffledApplicable(rs: seq<PluginOutcome>, rs': seq<PluginOutcome>)
    requires |rs| == |rs'| && forall i | 0 <= i < |rs| :: Shuffled(rs[i], rs'[i])
    ensures |Applicable(rs)| == |Applicable(rs')|
    ensures forall i | 0 <= i < |Applicable(rs)| :: Shuffled(Applicable(rs)[i], Applicable(rs')[i])
    decreases |rs|
  {
    if rs != [] {
      ShuffledApplicable(rs[..|rs| - 1], rs'[..|rs| - 1]);
    }
  }

  lemma {:induction false} ShuffledPool(a: seq<PluginOutcome>, b: seq<PluginOutcome>, claimed: Key, key: Key)
    requires |a| == |b| && forall i | 0 <= i < |a| :: Shuffled(a[i], b[i])
    ensures Pool(a, claimed, key) == Pool(b, claimed, key)
    decreases |a|
  {
    if a != [] {
      ShuffledPool(a[..|a| - 1], b[..|a| - 1], claimed, key);
      ShuffledReports(a[|a| - 1], b[|a| - 1], claimed, key);
    }
  }

  /** Nor does the order of the candidates inside each plugin's result, in the same sense. */
  lemma CandidateOrderDoesNotMatter(cfg: Config, l: Link, rs: seq<PluginOutcome>, rs': seq<PluginOutcome>, claimedIds: set<nat>)
    requires |rs| == |rs'| && (forall i | 0 <= i < |rs| :: Shuffled(rs[i], rs'[i]))
    ensures SameUpToPrinting(Sheet(cfg, l, rs, claimedIds), Sheet(cfg, l, rs', claimedIds),
                             SheetKeys(rs, claimedIds), InSeries(claimedIds))
  {
    var claimed, a, b := InSeries(claimedIds), Applicable(rs), Applicable(rs');
    ShuffledApplicable(rs, rs');
    forall key ensures OnSheet(a, claimed, key) <==> OnSheet(b, claimed, key) {
      forall i | 0 <= i < |a| ensures Reported(a[i], key) <==> Reported(b[i], key) {
        ShuffledReports(a[i], b[i], claimed, key);
      }
      if i :| 0 <= i < |a| && (Reported(a[i], key) || key == claimed) {
        assert b[i] in b;
      }
      if i :| 0 <= i < |b| && (Reported(b[i], key) || key == claimed) {
        assert a[i] in a;
      }
    }
    SameKeys(a, b, claimed);
    forall k ensures Score(cfg, l, a, claimed, k) == Score(cfg, l, b, claimed, k) {
      ShuffledPool(a, b, claimed, k);
    }
    assert SameScores(cfg, l, a, b, claimed);
    SameSheet(cfg, l, rs, rs', claimedIds);
  }

  /** Without commas in the imdb ids of ok plugins nothing at all depends on either order. */
  lemma CommaFreeOrderDoesNotMatter(cfg: Config, l: Link, rs: seq<PluginOutcome>, rs': seq<PluginOutcome>, claimedIds: set<nat>)
    requires CommaFreeResults(rs)
    requires multiset(rs) == multiset(rs') || (|rs| == |rs'| && forall i | 0 <= i < |rs| :: Shuffled(rs[i], rs'[i]))
    ensures SameVerdict(Sheet(cfg, l, rs, claimedIds), Sheet(cfg, l, rs', claimedIds))
  {
    CommaFreeKeysPrintApart(rs, claimedIds);
    if multiset(rs) == multiset(rs') {
      PluginOrderDoesNotMatter(cfg, l, rs, rs', claimedIds);
    } else {
      CandidateOrderDoesNotMatter(cfg, l, rs, rs', claimedIds);
    }
  }
}
