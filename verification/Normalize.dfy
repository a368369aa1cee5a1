/** `normalize.py`: turn what a plugin named into episode ids of the series, all of them or none. */
module Normalize {
  import opened Options
  import opened Candidates

  datatype Episode = Episode(id: nat, season: int, number: int, absolute: Option<int>,
                             sceneSeason: Option<int>, sceneNumber: Option<int>, sceneAbsolute: Option<int>)

  datatype Numbering = Tvdb | Tmdb | Absolute | Scene

  datatype SeriesRef = ClaimedSeries | OtherSeries(external: ExternalIds)

  datatype Ident = Ident(series: SeriesRef, season: int, episodes: seq<int>)

  /** A candidate names something in some numbering, or nothing. */
  datatype Named = Nothing | Something(ident: Ident, numbering: Numbering)

  datatype Candidate = Candidate(confidence: real, named: Named)

  // ----- the three matchers -----

  predicate ByNumber(e: Episode, season: int, n: int) {
    e.season == season && e.number == n
  }

  predicate ByAbsolute(e: Episode, n: int) {
    e.absolute == Some(n)
  }

  predicate BySceneNumber(e: Episode, season: int, n: int) {
    e.sceneSeason == Some(season) && e.sceneNumber == Some(n)
  }

  predicate BySceneAbsolute(e: Episode, n: int) {
    e.sceneAbsolute == Some(n)
  }

  /** The id of the first episode that fits. */
  function First(episodes: seq<Episode>, fits: Episode -> bool): Option<nat> {
    if episodes == [] then None
    else if fits(episodes[0]) then Some(episodes[0].id)
    else First(episodes[1..], fits)
  }

  function TvdbFirst(episodes: seq<Episode>, season: int, n: int): Option<nat> {
    First(episodes, e => ByNumber(e, season, n))
  }

  function AbsoluteFirst(episodes: seq<Episode>, n: int): Option<nat> {
    First(episodes, e => ByAbsolute(e, n))
  }

  function SceneFirst(episodes: seq<Episode>, season: int, n: int): Option<nat> {
    var paired := First(episodes, e => BySceneNumber(e, season, n));
    var absolute := First(episodes, e => BySceneAbsolute(e, n));
    if paired.Some? then paired else if absolute.Some? then absolute else TvdbFirst(episodes, season, n)
  }

  function Resolve(numbering: Numbering, episodes: seq<Episode>, season: int, n: int): Option<nat> {
    match numbering
    case Tvdb => TvdbFirst(episodes, season, n)
    case Tmdb => TvdbFirst(episodes, season, n)
    case Absolute => AbsoluteFirst(episodes, n)
    case Scene => SceneFirst(episodes, season, n)
  }

  ghost predicate FirstAt(episodes: seq<Episode>, fits: Episode -> bool, i: nat) {
    i < |episodes| && fits(episodes[i]) && forall j | 0 <= j < i :: !fits(episodes[j])
  }

  lemma {:induction false} FirstFound(episodes: seq<Episode>, fits: Episode -> bool, i: nat)
    requires FirstAt(episodes, fits, i)
    ensures First(episodes, fits) == Some(episodes[i].id)
  {
    if i > 0 {
      assert !fits(episodes[0]);
      assert forall j | 0 <= j < i - 1 :: episodes[1..][j] == episodes[j + 1];
      FirstFound(episodes[1..], fits, i - 1);
    }
  }

  lemma {:induction false} FirstMissing(episodes: seq<Episode>, fits: Episode -> bool)
    ensures First(episodes, fits).None? <==> forall e | e in episodes :: !fits(e)
    ensures First(episodes, fits).Some? ==> exists e :: e in episodes && fits(e) && First(episodes, fits) == Some(e.id)
  {
    if episodes != [] {
      assert episodes == [episodes[0]] + episodes[1..];
      FirstMissing(episodes[1..], fits);
    }
  }

  method MatchTvdb(episodes: seq<Episode>, season: int, n: int) returns (id: Option<nat>)
    ensures id == TvdbFirst(episodes, season, n)
  {
    for i := 0 to |episodes|
      invariant forall j | 0 <= j < i :: !ByNumber(episodes[j], season, n)
    {
      if episodes[i].season == season && episodes[i].number == n {
        FirstFound(episodes, e => ByNumber(e, season, n), i);
        return Some(episodes[i].id);
      }
    }
    FirstMissing(episodes, e => ByNumber(e, season, n));
    return None;
  }

  method MatchAbsolute(episodes: seq<Episode>, n: int) returns (id: Option<nat>)
    ensures id == AbsoluteFirst(episodes, n)
  {
    for i := 0 to |episodes|
      invariant forall j | 0 <= j < i :: !ByAbsolute(episodes[j], n)
    {
      if episodes[i].absolute == Some(n) {
        FirstFound(episodes, e => ByAbsolute(e, n), i);
        return Some(episodes[i].id);
      }
    }
    FirstMissing(episodes, e => ByAbsolute(e, n));
    return None;
  }

  method MatchScene(episodes: seq<Episode>, season: int, n: int) returns (id: Option<nat>)
    ensures id == SceneFirst(episodes, season, n)
  {
    for i := 0 to |episodes|
      invariant forall j | 0 <= j < i :: !BySceneNumber(episodes[j], season, n)
    {
      if episodes[i].sceneSeason == Some(season) && episodes[i].sceneNumber == Some(n) {
        FirstFound(episodes, e => BySceneNumber(e, season, n), i);
        return Some(episodes[i].id);
      }
    }
    FirstMissing(episodes, e => BySceneNumber(e, season, n));
    for i := 0 to |episodes|
      invariant forall j | 0 <= j < i :: !BySceneAbsolute(episodes[j], n)
    {
      if episodes[i].sceneAbsolute == Some(n) {
        FirstFound(episodes, e => BySceneAbsolute(e, n), i);
        return Some(episodes[i].id);
      }
    }
    FirstMissing(episodes, e => BySceneAbsolute(e, n));
    id := MatchTvdb(episodes, season, n);
  }

  /** A scene number falls back to the plain numbers only if no episode carries it as a scene number,
      paired or absolute; the paired number wins over the absolute one. */
  lemma ScenePrecedence(episodes: seq<Episode>, season: int, n: int)
    ensures (exists e :: e in episodes && BySceneNumber(e, season, n)) ==>
              exists e :: e in episodes && BySceneNumber(e, season, n) && SceneFirst(episodes, season, n) == Some(e.id)
    ensures (forall e | e in episodes :: !BySceneNumber(e, season, n)) && (exists e :: e in episodes && BySceneAbsolute(e, n)) ==>
              exists e :: e in episodes && BySceneAbsolute(e, n) && SceneFirst(episodes, season, n) == Some(e.id)
    ensures (forall e | e in episodes :: !BySceneNumber(e, season, n) && !BySceneAbsolute(e, n)) ==>
              SceneFirst(episodes, season, n) == TvdbFirst(episodes, season, n)
  {
    FirstMissing(episodes, e => BySceneNumber(e, season, n));
    FirstMissing(episodes, e => BySceneAbsolute(e, n));
  }

  ghost predicate FirstNumbered(episodes: seq<Episode>, season: int, n: int, i: nat) {
    i < |episodes| && episodes[i].season == season && episodes[i].number == n
    && forall j | 0 <= j < i :: !(episodes[j].season == season && episodes[j].number == n)
  }

  ghost predicate FirstAbsolute(episodes: seq<Episode>, n: int, i: nat) {
    i < |episodes| && episodes[i].absolute == Some(n) && forall j | 0 <= j < i :: episodes[j].absolute != Some(n)
  }

  ghost predicate FirstPaired(episodes: seq<Episode>, season: int, n: int, i: nat) {
    i < |episodes| && episodes[i].sceneSeason == Some(season) && episodes[i].sceneNumber == Some(n)
    && forall j | 0 <= j < i :: !(episodes[j].sceneSeason == Some(season) && episodes[j].sceneNumber == Some(n))
  }

  ghost predicate FirstSceneAbsolute(episodes: seq<Episode>, n: int, i: nat) {
    i < |episodes| && episodes[i].sceneAbsolute == Some(n) && forall j | 0 <= j < i :: episodes[j].sceneAbsolute != Some(n)
  }

  /** The episode a number stands for, by the numbering it was given in. */
  ghost predicate StandsFor(numbering: Numbering, episodes: seq<Episode>, season: int, n: int, i: nat) {
    match numbering
    case Tvdb => FirstNumbered(episodes, season, n, i)
    case Tmdb => FirstNumbered(episodes, season, n, i)
    case Absolute => FirstAbsolute(episodes, n, i)
    case Scene =>
      || FirstPaired(episodes, season, n, i)
      || ((forall j: nat :: !FirstPaired(episodes, season, n, j)) && FirstSceneAbsolute(episodes, n, i))
      || ((forall j: nat :: !FirstPaired(episodes, season, n, j)) && (forall j: nat :: !FirstSceneAbsolute(episodes, n, j))
          && FirstNumbered(episodes, season, n, i))
  }

  lemma {:induction false} FirstIff(episodes: seq<Episode>, fits: Episode -> bool, id: nat)
    ensures First(episodes, fits) == Some(id) <==> exists i: nat :: FirstAt(episodes, fits, i) && episodes[i].id == id
  {
    if i: nat :| FirstAt(episodes, fits, i) && episodes[i].id == id {
      FirstFound(episodes, fits, i);
    }
    if First(episodes, fits) == Some(id) {
      FirstMissing(episodes, fits);
      FirstFits(episodes, fits);
    }
  }

  lemma {:induction false} FirstFits(episodes: seq<Episode>, fits: Episode -> bool)
    requires exists e :: e in episodes && fits(e)
    ensures exists i: nat :: FirstAt(episodes, fits, i) && First(episodes, fits) == Some(episodes[i].id)
  {
    if fits(episodes[0]) {
      assert FirstAt(episodes, fits, 0);
    } else {
      assert episodes == [episodes[0]] + episodes[1..];
      FirstFits(episodes[1..], fits);
      var i: nat :| FirstAt(episodes[1..], fits, i) && First(episodes[1..], fits) == Some(episodes[1..][i].id);
      assert FirstAt(episodes, fits, i + 1);
    }
  }

  lemma FirstsMean(episodes: seq<Episode>, season: int, n: int, i: nat)
    ensures FirstAt(episodes, e => ByNumber(e, season, n), i) <==> FirstNumbered(episodes, season, n, i)
    ensures FirstAt(episodes, e => ByAbsolute(e, n), i) <==> FirstAbsolute(episodes, n, i)
    ensures FirstAt(episodes, e => BySceneNumber(e, season, n), i) <==> FirstPaired(episodes, season, n, i)
    ensures FirstAt(episodes, e => BySceneAbsolute(e, n), i) <==> FirstSceneAbsolute(episodes, n, i)
  {
  }

  lemma PassesIff(episodes: seq<Episode>, season: int, n: int, id: nat)
    ensures First(episodes, e => ByNumber(e, season, n)) == Some(id) <==>
            exists i: nat :: FirstNumbered(episodes, season, n, i) && episodes[i].id == id
    ensures First(episodes, e => ByAbsolute(e, n)) == Some(id) <==>
            exists i: nat :: FirstAbsolute(episodes, n, i) && episodes[i].id == id
    ensures First(episodes, e => BySceneNumber(e, season, n)) == Some(id) <==>
            exists i: nat :: FirstPaired(episodes, season, n, i) && episodes[i].id == id
    ensures First(episodes, e => BySceneAbsolute(e, n)) == Some(id) <==>
            exists i: nat :: FirstSceneAbsolute(episodes, n, i) && episodes[i].id == id
  {
    FirstIff(episodes, e => ByNumber(e, season, n), id);
    FirstIff(episodes, e => ByAbsolute(e, n), id);
    FirstIff(episodes, e => BySceneNumber(e, season, n), id);
    FirstIff(episodes, e => BySceneAbsolute(e, n), id);
    forall i: nat { FirstsMean(episodes, season, n, i); }
  }

  lemma NoPass(episodes: seq<Episode>, season: int, n: int)
    ensures First(episodes, e => BySceneNumber(e, season, n)).None? <==> forall j: nat :: !FirstPaired(episodes, season, n, j)
    ensures First(episodes, e => BySceneAbsolute(e, n)).None? <==> forall j: nat :: !FirstSceneAbsolute(episodes, n, j)
  {
    var paired := First(episodes, e => BySceneNumber(e, season, n));
    var absolute := First(episodes, e => BySceneAbsolute(e, n));
    PassesIff(episodes, season, n, if paired.Some? then paired.value else 0);
    PassesIff(episodes, season, n, if absolute.Some? then absolute.value else 0);
    if i: nat :| FirstPaired(episodes, season, n, i) {
      PassesIff(episodes, season, n, episodes[i].id);
    }
    if i: nat :| FirstSceneAbsolute(episodes, n, i) {
      PassesIff(episodes, season, n, episodes[i].id);
    }
  }

  /** Which numbering is matched how: tvdb and tmdb by season and number, absolute by the absolute number, scene
      by its three passes; always the first episode that fits. */
  lemma ResolveIff(numbering: Numbering, episodes: seq<Episode>, season: int, n: int, id: nat)
    ensures Resolve(numbering, episodes, season, n) == Some(id) <==>
            exists i: nat :: StandsFor(numbering, episodes, season, n, i) && episodes[i].id == id
  {
    PassesIff(episodes, season, n, id);
    NoPass(episodes, season, n);
  }

  /** What a candidate becomes: nothing named is junk, another series is passed on with its external ids. */
  lemma NormalFormIff(named: Named, episodes: seq<Episode>)
    ensures NormalForm(named, episodes) == JunkCandidate <==> named == Nothing
    ensures forall external :: NormalForm(named, episodes) == CrossSeriesCandidate(external) <==>
              named.Something? && named.ident.series == OtherSeries(external)
    ensures NormalForm(named, episodes) == Unnormalizable <==>
              && named.Something? && named.ident.series.ClaimedSeries?
              && exists n :: n in named.ident.episodes && forall id: nat :: Resolve(named.numbering, episodes, named.ident.season, n) != Some(id)
  {
    if named.Something? {
      ResolveAllMeaning(named.numbering, episodes, named.ident.season, named.ident.episodes);
      forall n ensures Resolve(named.numbering, episodes, named.ident.season, n).None? <==>
                       forall id: nat :: Resolve(named.numbering, episodes, named.ident.season, n) != Some(id) {
        var r := Resolve(named.numbering, episodes, named.ident.season, n);
        assert r.Some? ==> r == Some(r.value);
      }
    }
  }

  // ----- whole candidates -----

  /** The ids of the numbers, if every one of them resolves. */
  function ResolveAll(numbering: Numbering, episodes: seq<Episode>, season: int, numbers: seq<int>): Option<set<nat>> {
    if numbers == [] then Some({})
    else
      var before := ResolveAll(numbering, episodes, season, numbers[..|numbers| - 1]);
      var last := Resolve(numbering, episodes, season, numbers[|numbers| - 1]);
      if before.None? || last.None? then None else Some(before.value + {last.value})
  }

  function NormalForm(named: Named, episodes: seq<Episode>): Normalized {
    match named
    case Nothing => JunkCandidate
    case Something(Ident(OtherSeries(external), _, _), _) => CrossSeriesCandidate(external)
    case Something(Ident(ClaimedSeries, season, numbers), numbering) =>
      match ResolveAll(numbering, episodes, season, numbers)
      case Some(ids) => InSeriesCandidate(ids)
      case None => Unnormalizable
  }

  method MatchOne(numbering: Numbering, episodes: seq<Episode>, season: int, n: int) returns (id: Option<nat>)
    ensures id == Resolve(numbering, episodes, season, n)
  {
    match numbering
    case Tvdb => id := MatchTvdb(episodes, season, n);
    case Tmdb => id := MatchTvdb(episodes, season, n);
    case Absolute => id := MatchAbsolute(episodes, n);
    case Scene => id := MatchScene(episodes, season, n);
  }

  method Normalize(c: Candidate, episodes: seq<Episode>) returns (norm: Normalized)
    ensures norm == NormalForm(c.named, episodes)
  {
    if c.named.Nothing? {
      return JunkCandidate;
    }
    var ident, numbering := c.named.ident, c.named.numbering;
    if ident.series.OtherSeries? {
      return CrossSeriesCandidate(ident.series.external);
    }
    var ids: set<nat> := {};
    for i := 0 to |ident.episodes|
      invariant ResolveAll(numbering, episodes, ident.season, ident.episodes[..i]) == Some(ids)
    {
      assert ident.episodes[..i + 1][..i] == ident.episodes[..i];
      var id := MatchOne(numbering, episodes, ident.season, ident.episodes[i]);
      if id.None? {
        OneMissing(numbering, episodes, ident.season, ident.episodes, i);
        return Unnormalizable;
      }
      ids := ids + {id.value};
    }
    assert ident.episodes[..|ident.episodes|] == ident.episodes;
    return InSeriesCandidate(ids);
  }

  lemma {:induction false} OneMissing(numbering: Numbering, episodes: seq<Episode>, season: int, numbers: seq<int>, i: nat)
    requires i < |numbers| && Resolve(numbering, episodes, season, numbers[i]).None?
    ensures ResolveAll(numbering, episodes, season, numbers).None?
    decreases |numbers|
  {
    if i < |numbers| - 1 {
      OneMissing(numbering, episodes, season, numbers[..|numbers| - 1], i);
    }
  }

  /** All or nothing: a named candidate resolves exactly if each of its numbers does, and then to exactly
      the ids its numbers resolve to. */
  lemma {:induction false} ResolveAllMeaning(numbering: Numbering, episodes: seq<Episode>, season: int, numbers: seq<int>)
    ensures ResolveAll(numbering, episodes, season, numbers).Some? <==>
            forall n | n in numbers :: Resolve(numbering, episodes, season, n).Some?
    ensures ResolveAll(numbering, episodes, season, numbers).Some? ==>
              forall id :: id in ResolveAll(numbering, episodes, season, numbers).value
                           <==> exists n :: n in numbers && Resolve(numbering, episodes, season, n) == Some(id)
    decreases |numbers|
  {
    if numbers != [] {
      var init, last := numbers[..|numbers| - 1], numbers[|numbers| - 1];
      assert numbers == init + [last];
      ResolveAllMeaning(numbering, episodes, season, init);
    }
  }

  lemma ResolveGivesListed(numbering: Numbering, episodes: seq<Episode>, season: int, n: int)
    requires Resolve(numbering, episodes, season, n).Some?
    ensures exists e :: e in episodes && e.id == Resolve(numbering, episodes, season, n).value
  {
    FirstMissing(episodes, e => ByNumber(e, season, n));
    FirstMissing(episodes, e => ByAbsolute(e, n));
    FirstMissing(episodes, e => BySceneNumber(e, season, n));
    FirstMissing(episodes, e => BySceneAbsolute(e, n));
  }

  /** An in-series candidate holds at least one id, and only ids from the episode list. */
  lemma NormalFormIsListed(named: Named, episodes: seq<Episode>)
    requires NormalForm(named, episodes).InSeriesCandidate? && named.ident.episodes != []
    ensures NormalForm(named, episodes).episodeIds != {}
    ensures forall id | id in NormalForm(named, episodes).episodeIds :: exists e :: e in episodes && e.id == id
  {
    var ident, numbering := named.ident, named.numbering;
    var ids := NormalForm(named, episodes).episodeIds;
    ResolveAllMeaning(numbering, episodes, ident.season, ident.episodes);
    var n := ident.episodes[0];
    assert n in ident.episodes;
    assert Resolve(numbering, episodes, ident.season, n).value in ids;
    forall id | id in ids ensures exists e :: e in episodes && e.id == id {
      var n :| n in ident.episodes && Resolve(numbering, episodes, ident.season, n) == Some(id);
      ResolveGivesListed(numbering, episodes, ident.season, n);
    }
  }
}
