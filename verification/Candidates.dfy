/**
 Candidate keys and their printed form: `_key_for` and `_key_repr` of `scoring.py`.  Ties between
 alternates are broken by the printed form, so it matters when two keys can print alike.
 */
module Candidates {
  import opened Options
  import opened Decimal
  import opened SortedSets

  datatype ExternalIds = ExternalIds(tvdb: Option<nat>, tmdb: Option<nat>, imdb: Option<string>)

  datatype Normalized =
    | InSeriesCandidate(episodeIds: set<nat>)
    | CrossSeriesCandidate(externalIds: ExternalIds)
    | JunkCandidate
    | Unnormalizable

  datatype Key = InSeries(ids: set<nat>) | Cross(external: ExternalIds) | Junk

  datatype Kind = InSeriesKind | CrossSeriesKind | JunkKind

  function KeyFor(n: Normalized): (key: Option<Key>) {
    match n
    case InSeriesCandidate(ids) => Some(InSeries(ids))
    case CrossSeriesCandidate(external) => Some(Cross(external))
    case JunkCandidate => Some(Junk)
    case Unnormalizable => None
  }

  function KindOf(key: Key): Kind {
    match key
    case InSeries(_) => InSeriesKind
    case Cross(_) => CrossSeriesKind
    case Junk => JunkKind
  }

  // ----- printing -----

  /** `",".join(parts)`. */
  function Join(parts: seq<string>): string {
    if parts == [] then ""
    else if |parts| == 1 then parts[0]
    else parts[0] + ("," + Join(parts[1..]))
  }

  function ShowAll(ids: seq<nat>): seq<string> {
    if ids == [] then [] else [Show(ids[0])] + ShowAll(ids[1..])
  }

  /** The external ids that are set, sorted by name. */
  function Items(e: ExternalIds): seq<string> {
    (match e.imdb case Some(id) => ["imdb=" + id] case None => [])
    + (match e.tmdb case Some(id) => ["tmdb=" + Show(id)] case None => [])
    + (match e.tvdb case Some(id) => ["tvdb=" + Show(id)] case None => [])
  }

  function KeyRepr(key: Key): string {
    match key
    case InSeries(ids) => "in_series:" + Join(ShowAll(Sorted(ids)))
    case Cross(external) => "cross:" + Join(Items(external))
    case Junk => "junk"
  }

  // ----- different keys print differently -----

  predicate CommaFree(s: string) {
    ',' !in s
  }

  predicate Printable(key: Key) {
    key.Cross? && key.external.imdb.Some? ==> CommaFree(key.external.imdb.value)
  }

  function FirstComma(s: string): nat {
    if s == "" || s[0] == ',' then 0 else 1 + FirstComma(s[1..])
  }

  lemma {:induction false} FirstCommaAfter(p: string, r: string)
    requires CommaFree(p) && (r == "" || r[0] == ',')
    ensures FirstComma(p + r) == |p|
  {
    if p == "" {
      assert p + r == r;
    } else {
      assert p[0] in p && (p + r)[1..] == p[1..] + r;
      FirstCommaAfter(p[1..], r);
    }
  }

  lemma SplitAtComma(p: string, r: string, q: string, r': string)
    requires CommaFree(p) && CommaFree(q) && p + r == q + r'
    requires (r == "" || r[0] == ',') && (r' == "" || r'[0] == ',')
    ensures p == q && r == r'
  {
    FirstCommaAfter(p, r);
    FirstCommaAfter(q, r');
    assert p == (p + r)[..|p|] && q == (q + r')[..|q|];
    assert r == (p + r)[|p|..] && r' == (q + r')[|q|..];
  }

  predicate Parts(parts: seq<string>) {
    forall i | 0 <= i < |parts| :: parts[i] != "" && CommaFree(parts[i])
  }

  lemma {:induction false} JoinInjective(a: seq<string>, b: seq<string>)
    requires Parts(a) && Parts(b) && Join(a) == Join(b)
    ensures a == b
    decreases |a|
  {
    if a != [] && b != [] {
      var r := if |a| == 1 then "" else "," + Join(a[1..]);
      var r' := if |b| == 1 then "" else "," + Join(b[1..]);
      assert Join(a) == a[0] + r && Join(b) == b[0] + r';
      SplitAtComma(a[0], r, b[0], r');
      if |a| > 1 {
        assert r[1..] == Join(a[1..]) && r'[1..] == Join(b[1..]);
        JoinInjective(a[1..], b[1..]);
        assert a == [a[0]] + a[1..] && b == [b[0]] + b[1..];
      }
    }
  }

  lemma {:induction false} ShowAllInjective(a: seq<nat>, b: seq<nat>)
    requires ShowAll(a) == ShowAll(b)
    ensures a == b
  {
    if a != [] && b != [] {
      assert ShowAll(a)[0] == Show(a[0]) && ShowAll(b)[0] == Show(b[0]);
      ShowInjective(a[0], b[0]);
      assert ShowAll(a)[1..] == ShowAll(a[1..]) && ShowAll(b)[1..] == ShowAll(b[1..]);
      ShowAllInjective(a[1..], b[1..]);
      assert a == [a[0]] + a[1..] && b == [b[0]] + b[1..];
    }
  }

  lemma {:induction false} ShowAllParts(ids: seq<nat>)
    ensures Parts(ShowAll(ids)) && |ShowAll(ids)| == |ids|
  {
    if ids != [] {
      var s := Show(ids[0]);
      assert forall i | 0 <= i < |s| :: IsDigit(s[i]);
      ShowAllParts(ids[1..]);
    }
  }

  lemma LabelledParts(tag: string, value: string)
    requires CommaFree(tag) && tag != "" && CommaFree(value)
    ensures tag + value != "" && CommaFree(tag + value)
  {
  }

  lemma DigitsCommaFree(n: nat)
    ensures CommaFree(Show(n))
  {
    assert forall i | 0 <= i < |Show(n)| :: IsDigit(Show(n)[i]);
  }

  lemma ItemsParts(e: ExternalIds)
    requires e.imdb.Some? ==> CommaFree(e.imdb.value)
    ensures Parts(Items(e))
  {
    if e.imdb.Some? {
      LabelledParts("imdb=", e.imdb.value);
    }
    if e.tmdb.Some? {
      DigitsCommaFree(e.tmdb.value);
      LabelledParts("tmdb=", Show(e.tmdb.value));
    }
    if e.tvdb.Some? {
      DigitsCommaFree(e.tvdb.value);
      LabelledParts("tvdb=", Show(e.tvdb.value));
    }
  }

  /** The value of the item with this tag, if the list has one. */
  function Lookup(items: seq<string>, tag: string): Option<string> {
    if items == [] then None
    else if tag <= items[0] then Some(items[0][|tag|..])
    else Lookup(items[1..], tag)
  }

  lemma LookupFirst(asked: string, tag: string, value: string, rest: seq<string>)
    requires |asked| == |tag|
    ensures Lookup([tag + value] + rest, asked) == if asked == tag then Some(value) else Lookup(rest, asked)
  {
    var items := [tag + value] + rest;
    assert items[1..] == rest && items[0] == tag + value;
    assert (tag + value)[..|tag|] == tag && (tag + value)[|tag|..] == value;
  }

  function Item(tag: string, value: Option<string>): seq<string> {
    match value case Some(v) => [tag + v] case None => []
  }

  lemma LookupItem(asked: string, tag: string, value: Option<string>, rest: seq<string>)
    requires |asked| == |tag|
    ensures Lookup(Item(tag, value) + rest, asked) == if asked == tag && value.Some? then value else Lookup(rest, asked)
  {
    if value.Some? {
      LookupFirst(asked, tag, value.value, rest);
    } else {
      assert Item(tag, value) + rest == rest;
    }
  }

  function Shown(id: Option<nat>): Option<string> {
    match id case Some(n) => Some(Show(n)) case None => None
  }

  lemma ItemsTell(e: ExternalIds, asked: string)
    requires |asked| == 5
    ensures Lookup(Items(e), asked) ==
            if asked == "imdb=" && e.imdb.Some? then e.imdb
            else if asked == "tmdb=" && e.tmdb.Some? then Shown(e.tmdb)
            else if asked == "tvdb=" then Shown(e.tvdb)
            else None
  {
    var imdb, tmdb, tvdb := Item("imdb=", e.imdb), Item("tmdb=", Shown(e.tmdb)), Item("tvdb=", Shown(e.tvdb));
    assert Items(e) == imdb + (tmdb + (tvdb + []));
    LookupItem(asked, "tvdb=", Shown(e.tvdb), []);
    LookupItem(asked, "tmdb=", Shown(e.tmdb), tvdb + []);
    LookupItem(asked, "imdb=", e.imdb, tmdb + (tvdb + []));
  }

  lemma ItemsInjective(a: ExternalIds, b: ExternalIds)
    requires Items(a) == Items(b)
    ensures a == b
  {
    assert "imdb="[0] == 'i' && "tmdb="[0] == 't' && "tmdb="[1] == 'm' && "tvdb="[1] == 'v';
    ItemsTell(a, "imdb=");
    ItemsTell(b, "imdb=");
    ItemsTell(a, "tmdb=");
    ItemsTell(b, "tmdb=");
    ItemsTell(a, "tvdb=");
    ItemsTell(b, "tvdb=");
    if a.tmdb.Some? && b.tmdb.Some? {
      ShowInjective(a.tmdb.value, b.tmdb.value);
    }
    if a.tvdb.Some? && b.tvdb.Some? {
      ShowInjective(a.tvdb.value, b.tvdb.value);
    }
  }

  /** Keys whose imdb ids hold no comma print alike only if they are the same key. */
  lemma KeyReprInjective(a: Key, b: Key)
    requires Printable(a) && Printable(b) && KeyRepr(a) == KeyRepr(b)
    ensures a == b
  {
    assert KeyRepr(a)[0] == KeyRepr(b)[0];
    match a
    case InSeries(ids) =>
      var s, t := Join(ShowAll(Sorted(ids))), Join(ShowAll(Sorted(b.ids)));
      assert KeyRepr(a)[10..] == s && KeyRepr(b)[10..] == t;
      ShowAllParts(Sorted(ids));
      ShowAllParts(Sorted(b.ids));
      JoinInjective(ShowAll(Sorted(ids)), ShowAll(Sorted(b.ids)));
      ShowAllInjective(Sorted(ids), Sorted(b.ids));
      SortedMeaning(ids);
      SortedMeaning(b.ids);
      assert ids == b.ids;
    case Cross(external) =>
      assert KeyRepr(a)[6..] == Join(Items(external)) && KeyRepr(b)[6..] == Join(Items(b.external));
      ItemsParts(external);
      ItemsParts(b.external);
      JoinInjective(Items(external), Items(b.external));
      ItemsInjective(external, b.external);
    case Junk =>
  }

  /** With a comma in an imdb id they need not be. */
  lemma CommasCollide()
    ensures var a, b := Cross(ExternalIds(None, Some(5), Some("x"))), Cross(ExternalIds(None, None, Some("x,tmdb=5")));
            a != b && KeyRepr(a) == KeyRepr(b)
  {
    var a, b := ExternalIds(None, Some(5), Some("x")), ExternalIds(None, None, Some("x,tmdb=5"));
    assert Show(5) == [DigitChar(5)];
    var tmdb := "tmdb=" + Show(5);
    var imdb := "imdb=" + "x";
    assert imdb == "imdb=x";
    assert Items(a) == [imdb, tmdb] && [imdb, tmdb][1..] == [tmdb];
    assert Join(Items(a)) == "imdb=x" + ("," + tmdb);
    assert Items(b) == ["imdb=" + "x,tmdb=5"];
    assert "imdb=x" + ("," + tmdb) == "imdb=" + "x,tmdb=5";
  }

  // ----- the order of printed forms -----

  /** Python's `a < b` on strings. */
  predicate LexLess(a: string, b: string) {
    b != "" && (a == "" || a[0] < b[0] || (a[0] == b[0] && LexLess(a[1..], b[1..])))
  }

  lemma {:induction false} LexTotal(a: string, b: string)
    ensures a != b ==> LexLess(a, b) || LexLess(b, a)
    ensures !(LexLess(a, b) && LexLess(b, a)) && !LexLess(a, a)
    decreases |a| + |b|
  {
    if a != "" {
      LexIrreflexive(a[1..]);
    }
    if a != "" && b != "" && a[0] == b[0] {
      LexTotal(a[1..], b[1..]);
      assert a == [a[0]] + a[1..] && b == [b[0]] + b[1..];
    }
  }

  lemma {:induction false} LexIrreflexive(a: string)
    ensures !LexLess(a, a)
  {
    if a != "" {
      LexIrreflexive(a[1..]);
    }
  }

  lemma {:induction false} LexTransitive(a: string, b: string, c: string)
    requires LexLess(a, b) && LexLess(b, c)
    ensures LexLess(a, c)
  {
    if a != "" && a[0] == b[0] == c[0] {
      LexTransitive(a[1..], b[1..], c[1..]);
    }
  }
}
