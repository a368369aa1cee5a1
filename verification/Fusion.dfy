/**
 `_fuse` and `_reject_outliers` of `scoring.py`, over real numbers.  The logit and the logistic function
 are any strictly increasing bijection from (0, 1) to the reals and its inverse.
 */
module Fusion {

  datatype Strategy = Linear | LogOdds

  datatype Config = Config(fusion: Strategy, eps: real, outlierRejection: bool,
                           outlierHigh: real, outlierLow: real, minAgreeing: int)

  datatype Report = Report(plugin: string, weight: real, confidence: real)

  /** The pair of transforms of log-odds pooling. */
  datatype Link = Link(logit: real -> real, logistic: real -> real)

  ghost predicate IsLink(l: Link) {
    && (forall a, b | 0.0 < a < b < 1.0 :: l.logit(a) < l.logit(b))
    && (forall x: real :: 0.0 < l.logistic(x) < 1.0 && l.logit(l.logistic(x)) == x)
    && (forall c | 0.0 < c < 1.0 :: l.logistic(l.logit(c)) == c)
  }

  function Clamp(c: real, eps: real): real {
    var atLeast := if c > eps then c else eps;
    if atLeast < 1.0 - eps then atLeast else 1.0 - eps
  }

  predicate GoodEps(cfg: Config) {
    0.0 < cfg.eps <= 0.5
  }

  predicate Weighted(rs: seq<Report>) {
    forall i | 0 <= i < |rs| :: rs[i].weight >= 0.0
  }

  function SumOf(f: Report -> real, rs: seq<Report>): real {
    if rs == [] then 0.0 else SumOf(f, rs[..|rs| - 1]) + f(rs[|rs| - 1])
  }

  function WeightOf(r: Report): real {
    r.weight
  }

  function SumW(rs: seq<Report>): real {
    SumOf(WeightOf, rs)
  }

  /** What pooling averages: the confidence itself, or the logit of the clamped confidence. */
  function Term(cfg: Config, l: Link, c: real): real {
    match cfg.fusion
    case Linear => c
    case LogOdds => l.logit(Clamp(c, cfg.eps))
  }

  /** A report's weighted term. */
  function Share(cfg: Config, l: Link): Report -> real {
    (r: Report) => r.weight * Term(cfg, l, r.confidence)
  }

  function SumT(cfg: Config, l: Link, rs: seq<Report>): real {
    SumOf(Share(cfg, l), rs)
  }

  /** The mean, mapped back. */
  function Pooled(cfg: Config, l: Link, rs: seq<Report>): real
    requires SumW(rs) > 0.0
  {
    var mean := SumT(cfg, l, rs) / SumW(rs);
    match cfg.fusion
    case Linear => mean
    case LogOdds => l.logistic(mean)
  }

  /** `_fuse`: an unweighted pool scores 0, and a single report is returned clamped, not pooled. */
  function Fuse(cfg: Config, l: Link, rs: seq<Report>): real {
    if SumW(rs) <= 0.0 then 0.0
    else if cfg.fusion == LogOdds && |rs| == 1 then Clamp(rs[0].confidence, cfg.eps)
    else Pooled(cfg, l, rs)
  }

  method ComputeFuse(cfg: Config, l: Link, rs: seq<Report>) returns (score: real)
    ensures score == Fuse(cfg, l, rs)
  {
    var sumW := 0.0;
    for i := 0 to |rs|
      invariant sumW == SumW(rs[..i])
    {
      assert rs[..i + 1][..i] == rs[..i];
      sumW := sumW + rs[i].weight;
    }
    assert rs[..|rs|] == rs;
    if sumW <= 0.0 {
      return 0.0;
    }
    if cfg.fusion == Linear {
      var total := 0.0;
      for i := 0 to |rs|
        invariant total == SumT(cfg, l, rs[..i])
      {
        assert rs[..i + 1][..i] == rs[..i];
        total := total + rs[i].weight * rs[i].confidence;
      }
      return total / sumW;
    }
    if |rs| == 1 {
      return Clamp(rs[0].confidence, cfg.eps);
    }
    var totalLogit := 0.0;
    for i := 0 to |rs|
      invariant totalLogit == SumT(cfg, l, rs[..i])
    {
      assert rs[..i + 1][..i] == rs[..i];
      var c := Clamp(rs[i].confidence, cfg.eps);
      totalLogit := totalLogit + rs[i].weight * l.logit(c);
    }
    return l.logistic(totalLogit / sumW);
  }

  // ----- real arithmetic -----

  lemma MulMono(w: real, a: real, b: real)
    requires w >= 0.0 && a <= b
    ensures w * a <= w * b
  {
  }

  lemma MulMonoStrict(w: real, a: real, b: real)
    requires w > 0.0 && a < b
    ensures w * a < w * b
  {
  }

  /** A floor under the mean so far is one with one more term above it; likewise a ceiling. */
  lemma FloorStep(lo: real, sumW: real, sumT: real, w: real, t: real)
    requires w >= 0.0 && lo <= t && lo * sumW <= sumT
    ensures lo * (sumW + w) <= sumT + w * t
  {
    MulMono(w, lo, t);
    assert lo * (sumW + w) == lo * sumW + w * lo;
  }

  lemma CeilingStep(hi: real, sumW: real, sumT: real, w: real, t: real)
    requires w >= 0.0 && t <= hi && sumT <= hi * sumW
    ensures sumT + w * t <= hi * (sumW + w)
  {
    MulMono(w, t, hi);
    assert hi * (sumW + w) == hi * sumW + w * hi;
  }

  lemma DivIs(x: real, s: real)
    requires s > 0.0
    ensures s * (x / s) == x
  {
  }

  lemma DivAtLeast(x: real, s: real, lo: real)
    requires s > 0.0 && lo * s <= x
    ensures lo <= x / s
  {
    var q := x / s;
    DivIs(x, s);
    if q < lo {
      MulMonoStrict(s, q, lo);
    }
  }

  lemma DivAtMost(x: real, s: real, hi: real)
    requires s > 0.0 && x <= hi * s
    ensures x / s <= hi
  {
    var q := x / s;
    DivIs(x, s);
    if q > hi {
      MulMonoStrict(s, hi, q);
    }
  }

  lemma DivMono(x: real, y: real, s: real)
    requires s > 0.0 && x <= y
    ensures x / s <= y / s
  {
    DivIs(y, s);
    DivAtMost(x, s, y / s);
  }

  lemma DivCancel(x: real, w: real, t: real)
    requires w > 0.0 && x == w * t
    ensures x / w == t
  {
    DivAtLeast(x, w, t);
    DivAtMost(x, w, t);
  }

  // ----- the transforms -----

  lemma ClampMono(a: real, b: real, eps: real)
    requires a <= b && eps <= 0.5
    ensures eps <= Clamp(a, eps) <= Clamp(b, eps) <= 1.0 - eps
  {
  }

  lemma LogisticMono(l: Link, x: real, y: real)
    requires IsLink(l) && x <= y
    ensures l.logistic(x) <= l.logistic(y)
  {
    var a, b := l.logistic(x), l.logistic(y);
    assert b < a ==> l.logit(b) < l.logit(a);
  }

  lemma TermMono(cfg: Config, l: Link, a: real, b: real)
    requires IsLink(l) && GoodEps(cfg) && a <= b
    ensures Term(cfg, l, a) <= Term(cfg, l, b)
  {
    ClampMono(a, b, cfg.eps);
    var ca, cb := Clamp(a, cfg.eps), Clamp(b, cfg.eps);
    if ca < cb {
      assert l.logit(ca) < l.logit(cb);
    }
  }

  /** The value a report contributes on the confidence scale: the confidence, clamped for log-odds. */
  function Value(cfg: Config, c: real): real {
    if cfg.fusion == Linear then c else Clamp(c, cfg.eps)
  }

  /** Mapping a single term back gives its value. */
  lemma TermValue(cfg: Config, l: Link, c: real)
    requires IsLink(l) && GoodEps(cfg)
    ensures cfg.fusion == LogOdds ==> l.logistic(Term(cfg, l, c)) == Value(cfg, c)
  {
    ClampMono(c, c, cfg.eps);
  }

  // ----- fusion is a true mean -----

  lemma {:induction false} SumTAtLeast(cfg: Config, l: Link, rs: seq<Report>, lo: real)
    requires Weighted(rs) && forall i | 0 <= i < |rs| :: lo <= Term(cfg, l, rs[i].confidence)
    ensures lo * SumW(rs) <= SumT(cfg, l, rs)
    decreases |rs|
  {
    if rs != [] {
      var init, last := rs[..|rs| - 1], rs[|rs| - 1];
      SumTAtLeast(cfg, l, init, lo);
      FloorStep(lo, SumW(init), SumT(cfg, l, init), last.weight, Term(cfg, l, last.confidence));
    }
  }

  lemma {:induction false} SumTAtMost(cfg: Config, l: Link, rs: seq<Report>, hi: real)
    requires Weighted(rs) && forall i | 0 <= i < |rs| :: Term(cfg, l, rs[i].confidence) <= hi
    ensures SumT(cfg, l, rs) <= hi * SumW(rs)
    decreases |rs|
  {
    if rs != [] {
      var init, last := rs[..|rs| - 1], rs[|rs| - 1];
      SumTAtMost(cfg, l, init, hi);
      CeilingStep(hi, SumW(init), SumT(cfg, l, init), last.weight, Term(cfg, l, last.confidence));
    }
  }

  lemma MeanBounds(cfg: Config, l: Link, rs: seq<Report>, lo: real, hi: real)
    requires Weighted(rs) && SumW(rs) > 0.0
    requires forall i | 0 <= i < |rs| :: lo <= Term(cfg, l, rs[i].confidence) <= hi
    ensures lo <= SumT(cfg, l, rs) / SumW(rs) <= hi
  {
    SumTAtLeast(cfg, l, rs, lo);
    SumTAtMost(cfg, l, rs, hi);
    DivAtLeast(SumT(cfg, l, rs), SumW(rs), lo);
    DivAtMost(SumT(cfg, l, rs), SumW(rs), hi);
  }

  lemma {:induction false} Extremes(rs: seq<Report>) returns (least: nat, greatest: nat)
    requires rs != []
    ensures least < |rs| && greatest < |rs|
    ensures forall i | 0 <= i < |rs| :: rs[least].confidence <= rs[i].confidence <= rs[greatest].confidence
    decreases |rs|
  {
    var n := |rs| - 1;
    least, greatest := n, n;
    if n > 0 {
      least, greatest := Extremes(rs[..n]);
      assert forall i | 0 <= i < n :: rs[i] == rs[..n][i];
      if rs[n].confidence < rs[least].confidence {
        least := n;
      }
      if rs[n].confidence > rs[greatest].confidence {
        greatest := n;
      }
    }
  }

  lemma PooledBetween(cfg: Config, l: Link, rs: seq<Report>, a: real, b: real)
    requires IsLink(l) && GoodEps(cfg) && Weighted(rs) && SumW(rs) > 0.0
    requires forall i | 0 <= i < |rs| :: a <= rs[i].confidence <= b
    ensures Value(cfg, a) <= Pooled(cfg, l, rs) <= Value(cfg, b)
  {
    var lo, hi := Term(cfg, l, a), Term(cfg, l, b);
    forall i | 0 <= i < |rs| ensures lo <= Term(cfg, l, rs[i].confidence) <= hi {
      TermMono(cfg, l, a, rs[i].confidence);
      TermMono(cfg, l, rs[i].confidence, b);
    }
    MeanBounds(cfg, l, rs, lo, hi);
    if cfg.fusion == LogOdds {
      LogisticMono(l, lo, SumT(cfg, l, rs) / SumW(rs));
      LogisticMono(l, SumT(cfg, l, rs) / SumW(rs), hi);
      TermValue(cfg, l, a);
      TermValue(cfg, l, b);
    }
  }

  /** The shortcut for a single report is the general formula. */
  lemma FuseIsPooled(cfg: Config, l: Link, rs: seq<Report>)
    requires IsLink(l) && GoodEps(cfg) && SumW(rs) > 0.0
    ensures Fuse(cfg, l, rs) == Pooled(cfg, l, rs)
  {
    if cfg.fusion == LogOdds && |rs| == 1 {
      var r := rs[0];
      var t := Term(cfg, l, r.confidence);
      assert rs[..0] == [];
      assert SumOf(WeightOf, []) == 0.0 && SumOf(Share(cfg, l), []) == 0.0;
      assert SumW(rs) == r.weight && SumT(cfg, l, rs) == r.weight * t;
      DivCancel(SumT(cfg, l, rs), SumW(rs), t);
      TermValue(cfg, l, r.confidence);
    }
  }

  /** Both fusions lie between the least and the greatest reported value. */
  lemma FuseBetween(cfg: Config, l: Link, rs: seq<Report>, a: real, b: real)
    requires IsLink(l) && GoodEps(cfg) && Weighted(rs) && SumW(rs) > 0.0
    requires forall i | 0 <= i < |rs| :: a <= rs[i].confidence <= b
    ensures Value(cfg, a) <= Fuse(cfg, l, rs) <= Value(cfg, b)
  {
    PooledBetween(cfg, l, rs, a, b);
    FuseIsPooled(cfg, l, rs);
  }

  /** ... that is, between the values of two reports of the pool. */
  lemma FuseIsBetweenReports(cfg: Config, l: Link, rs: seq<Report>) returns (least: nat, greatest: nat)
    requires IsLink(l) && GoodEps(cfg) && Weighted(rs) && SumW(rs) > 0.0
    ensures least < |rs| && greatest < |rs|
    ensures Value(cfg, rs[least].confidence) <= Fuse(cfg, l, rs) <= Value(cfg, rs[greatest].confidence)
  {
    least, greatest := Extremes(rs);
    FuseBetween(cfg, l, rs, rs[least].confidence, rs[greatest].confidence);
  }

  /** The same reports with no confidence lowered. */
  ghost predicate Raised(rs: seq<Report>, rs': seq<Report>) {
    && |rs| == |rs'|
    && forall i | 0 <= i < |rs| :: rs[i].weight == rs'[i].weight && rs[i].confidence <= rs'[i].confidence
  }

  lemma {:induction false} SumWSame(rs: seq<Report>, rs': seq<Report>)
    requires Raised(rs, rs')
    ensures SumW(rs) == SumW(rs')
    decreases |rs|
  {
    if rs != [] {
      SumWSame(rs[..|rs| - 1], rs'[..|rs| - 1]);
    }
  }

  lemma {:induction false} SumOfMono(f: Report -> real, rs: seq<Report>, rs': seq<Report>)
    requires |rs| == |rs'| && forall i | 0 <= i < |rs| :: f(rs[i]) <= f(rs'[i])
    ensures SumOf(f, rs) <= SumOf(f, rs')
    decreases |rs|
  {
    if rs != [] {
      SumOfMono(f, rs[..|rs| - 1], rs'[..|rs| - 1]);
    }
  }

  lemma ShareMono(cfg: Config, l: Link, r: Report, r': Report)
    requires IsLink(l) && GoodEps(cfg) && r.weight >= 0.0
    requires r.weight == r'.weight && r.confidence <= r'.confidence
    ensures Share(cfg, l)(r) <= Share(cfg, l)(r')
  {
    TermMono(cfg, l, r.confidence, r'.confidence);
    MulMono(r.weight, Term(cfg, l, r.confidence), Term(cfg, l, r'.confidence));
  }

  lemma SumTMono(cfg: Config, l: Link, rs: seq<Report>, rs': seq<Report>)
    requires IsLink(l) && GoodEps(cfg) && Weighted(rs) && Raised(rs, rs')
    ensures SumT(cfg, l, rs) <= SumT(cfg, l, rs')
  {
    forall i | 0 <= i < |rs| ensures Share(cfg, l)(rs[i]) <= Share(cfg, l)(rs'[i]) {
      ShareMono(cfg, l, rs[i], rs'[i]);
    }
    SumOfMono(Share(cfg, l), rs, rs');
  }

  /** Fusion is monotone in every confidence. */
  lemma FuseMonotone(cfg: Config, l: Link, rs: seq<Report>, rs': seq<Report>)
    requires IsLink(l) && GoodEps(cfg) && Weighted(rs) && Raised(rs, rs')
    ensures Fuse(cfg, l, rs) <= Fuse(cfg, l, rs')
  {
    SumWSame(rs, rs');
    SumTMono(cfg, l, rs, rs');
    if SumW(rs) > 0.0 {
      FuseIsPooled(cfg, l, rs);
      FuseIsPooled(cfg, l, rs');
      DivMono(SumT(cfg, l, rs), SumT(cfg, l, rs'), SumW(rs));
      if cfg.fusion == LogOdds {
        LogisticMono(l, SumT(cfg, l, rs) / SumW(rs), SumT(cfg, l, rs') / SumW(rs));
      }
    }
  }

  // ----- the order of the reports does not matter -----

  /** The sequence without its i-th element. */
  function Without<T>(s: seq<T>, i: nat): (r: seq<T>)
    requires i < |s|
    ensures |r| == |s| - 1
  {
    s[..i] + s[i + 1..]
  }

  lemma WithoutMultiset<T>(s: seq<T>, i: nat)
    requires i < |s|
    ensures multiset(s) == multiset(Without(s, i)) + multiset{s[i]}
  {
    assert s == s[..i] + [s[i]] + s[i + 1..];
  }

  lemma WithoutInit<T>(s: seq<T>, i: nat)
    requires i < |s| - 1
    ensures Without(s, i)[..|s| - 2] == Without(s[..|s| - 1], i)
    ensures Without(s, i)[|s| - 2] == s[|s| - 1]
  {
  }

  lemma {:induction false} SumOfRemove(f: Report -> real, rs: seq<Report>, i: nat)
    requires i < |rs|
    ensures SumOf(f, rs) == SumOf(f, Without(rs, i)) + f(rs[i])
    decreases |rs|
  {
    var n := |rs| - 1;
    if i == n {
      assert Without(rs, i) == rs[..n];
    } else {
      WithoutInit(rs, i);
      SumOfRemove(f, rs[..n], i);
    }
  }

  lemma {:induction false} SumOfPermute(f: Report -> real, rs: seq<Report>, rs': seq<Report>)
    requires multiset(rs) == multiset(rs')
    ensures |rs| == |rs'| && SumOf(f, rs) == SumOf(f, rs')
    decreases |rs|
  {
    assert |multiset(rs)| == |rs| && |multiset(rs')| == |rs'|;
    if rs != [] {
      var n := |rs| - 1;
      assert rs[n] in multiset(rs');
      var i :| 0 <= i < |rs'| && rs'[i] == rs[n];
      WithoutMultiset(rs, n);
      WithoutMultiset(rs', i);
      assert Without(rs, n) == rs[..n];
      SameAfterRemoval(multiset(rs[..n]), multiset(Without(rs', i)), rs[n]);
      SumOfPermute(f, rs[..n], Without(rs', i));
      SumOfRemove(f, rs', i);
    }
  }

  lemma SameAfterRemoval<T>(a: multiset<T>, b: multiset<T>, x: T)
    requires a + multiset{x} == b + multiset{x}
    ensures a == b
  {
    assert (a + multiset{x}) - multiset{x} == a;
    assert (b + multiset{x}) - multiset{x} == b;
  }

  /** Fusion is invariant under permutation of the reports. */
  lemma FusePermute(cfg: Config, l: Link, rs: seq<Report>, rs': seq<Report>)
    requires multiset(rs) == multiset(rs')
    ensures Fuse(cfg, l, rs) == Fuse(cfg, l, rs')
  {
    SumOfPermute(WeightOf, rs, rs');
    SumOfPermute(Share(cfg, l), rs, rs');
    if |rs| == 1 {
      assert rs[0] in multiset(rs');
    }
  }

  // ----- outlier rejection -----

  function High(cfg: Config, rs: seq<Report>): seq<Report> {
    if rs == [] then []
    else
      var last := rs[|rs| - 1];
      High(cfg, rs[..|rs| - 1]) + if last.confidence >= cfg.outlierHigh then [last] else []
  }

  function Low(cfg: Config, rs: seq<Report>): seq<Report> {
    if rs == [] then []
    else
      var last := rs[|rs| - 1];
      Low(cfg, rs[..|rs| - 1]) + if last.confidence < cfg.outlierHigh then [last] else []
  }

  /** Enough reports agree high, and every other one is low. */
  predicate Rejects(cfg: Config, rs: seq<Report>) {
    && cfg.outlierRejection
    && |High(cfg, rs)| >= cfg.minAgreeing
    && Low(cfg, rs) != []
    && forall r | r in Low(cfg, rs) :: r.confidence <= cfg.outlierLow
  }

  function Kept(cfg: Config, rs: seq<Report>): seq<Report> {
    if Rejects(cfg, rs) then High(cfg, rs) else rs
  }

  function Excluded(cfg: Config, rs: seq<Report>): seq<Report> {
    if Rejects(cfg, rs) then Low(cfg, rs) else []
  }

  method RejectOutliers(cfg: Config, rs: seq<Report>) returns (kept: seq<Report>, excluded: seq<Report>)
    ensures kept == Kept(cfg, rs) && excluded == Excluded(cfg, rs)
  {
    if !cfg.outlierRejection {
      return rs, [];
    }
    var high, low := [], [];
    for i := 0 to |rs|
      invariant high == High(cfg, rs[..i]) && low == Low(cfg, rs[..i])
    {
      assert rs[..i + 1][..i] == rs[..i];
      if rs[i].confidence >= cfg.outlierHigh {
        high := high + [rs[i]];
      } else {
        low := low + [rs[i]];
      }
    }
    assert rs[..|rs|] == rs;
    if |high| < cfg.minAgreeing || low == [] {
      return rs, [];
    }
    if exists r | r in low :: r.confidence > cfg.outlierLow {
      return rs, [];
    }
    return high, low;
  }

  lemma SumOfSnoc(f: Report -> real, rs: seq<Report>, r: Report)
    ensures SumOf(f, rs + [r]) == SumOf(f, rs) + f(r)
  {
    assert (rs + [r])[..|rs|] == rs;
  }

  lemma {:induction false} HighLowSums(cfg: Config, f: Report -> real, rs: seq<Report>)
    ensures SumOf(f, rs) == SumOf(f, High(cfg, rs)) + SumOf(f, Low(cfg, rs))
    decreases |rs|
  {
    if rs != [] {
      var init, last := rs[..|rs| - 1], rs[|rs| - 1];
      HighLowSums(cfg, f, init);
      if last.confidence >= cfg.outlierHigh {
        SumOfSnoc(f, High(cfg, init), last);
        assert Low(cfg, rs) == Low(cfg, init);
      } else {
        SumOfSnoc(f, Low(cfg, init), last);
        assert High(cfg, rs) == High(cfg, init);
      }
    }
  }

  lemma HighLowSnoc(cfg: Config, rs: seq<Report>, r: Report)
    ensures High(cfg, rs + [r]) == High(cfg, rs) + if r.confidence >= cfg.outlierHigh then [r] else []
    ensures Low(cfg, rs + [r]) == Low(cfg, rs) + if r.confidence < cfg.outlierHigh then [r] else []
    ensures SumW(High(cfg, rs + [r])) == SumW(High(cfg, rs)) + if r.confidence >= cfg.outlierHigh then r.weight else 0.0
  {
    assert (rs + [r])[..|rs|] == rs;
    SumOfSnoc(WeightOf, High(cfg, rs), r);
    assert High(cfg, rs) + [] == High(cfg, rs);
  }

  lemma {:induction false} HighLowMembers(cfg: Config, rs: seq<Report>)
    ensures forall r | r in High(cfg, rs) :: r in rs && r.confidence >= cfg.outlierHigh
    ensures forall r | r in Low(cfg, rs) :: r in rs && r.confidence < cfg.outlierHigh
    ensures forall r | r in rs :: r in High(cfg, rs) || r in Low(cfg, rs)
    decreases |rs|
  {
    if rs != [] {
      var init := rs[..|rs| - 1];
      assert rs == init + [rs[|rs| - 1]];
      HighLowMembers(cfg, init);
    }
  }

  lemma HighLowWeighted(cfg: Config, rs: seq<Report>)
    requires Weighted(rs)
    ensures Weighted(High(cfg, rs)) && Weighted(Low(cfg, rs))
  {
    HighLowMembers(cfg, rs);
    assert forall r | r in rs :: r.weight >= 0.0;
    assert forall i | 0 <= i < |High(cfg, rs)| :: High(cfg, rs)[i] in High(cfg, rs);
    assert forall i | 0 <= i < |Low(cfg, rs)| :: Low(cfg, rs)[i] in Low(cfg, rs);
  }

  lemma AboveThreshold(cfg: Config, l: Link, rs: seq<Report>)
    requires IsLink(l) && GoodEps(cfg) && Weighted(rs)
    requires forall i | 0 <= i < |rs| :: rs[i].confidence >= cfg.outlierHigh
    ensures Term(cfg, l, cfg.outlierHigh) * SumW(rs) <= SumT(cfg, l, rs)
  {
    forall i | 0 <= i < |rs| ensures Term(cfg, l, cfg.outlierHigh) <= Term(cfg, l, rs[i].confidence) {
      TermMono(cfg, l, cfg.outlierHigh, rs[i].confidence);
    }
    SumTAtLeast(cfg, l, rs, Term(cfg, l, cfg.outlierHigh));
  }

  lemma BelowThreshold(cfg: Config, l: Link, rs: seq<Report>)
    requires IsLink(l) && GoodEps(cfg) && Weighted(rs)
    requires forall i | 0 <= i < |rs| :: rs[i].confidence < cfg.outlierHigh
    ensures SumT(cfg, l, rs) <= Term(cfg, l, cfg.outlierHigh) * SumW(rs)
  {
    forall i | 0 <= i < |rs| ensures Term(cfg, l, rs[i].confidence) <= Term(cfg, l, cfg.outlierHigh) {
      TermMono(cfg, l, rs[i].confidence, cfg.outlierHigh);
    }
    SumTAtMost(cfg, l, rs, Term(cfg, l, cfg.outlierHigh));
  }

  lemma {:induction false} SumOfNonNegative(rs: seq<Report>)
    requires Weighted(rs)
    ensures SumW(rs) >= 0.0
    decreases |rs|
  {
    if rs != [] {
      SumOfNonNegative(rs[..|rs| - 1]);
    }
  }

  /** A mean does not fall when terms below a floor are dropped and those above it stay. */
  lemma DroppingLowTerms(t: real, w: real, tHigh: real, wHigh: real, tLow: real, wLow: real, floor: real)
    requires wHigh > 0.0 && wLow >= 0.0 && t == tHigh + tLow && w == wHigh + wLow
    requires floor * wHigh <= tHigh && tLow <= floor * wLow
    ensures w > 0.0 && t / w <= tHigh / wHigh
  {
    var mean := tHigh / wHigh;
    DivIs(tHigh, wHigh);
    DivAtLeast(tHigh, wHigh, floor);
    MulMono(wLow, floor, mean);
    assert mean * w == wHigh * mean + wLow * mean;
    DivAtMost(t, w, mean);
  }

  /** Outlier rejection only helps consensus: the score after it is at least the score without it,
      as long as the kept reports carry weight. */
  lemma RejectionOnlyHelps(cfg: Config, l: Link, rs: seq<Report>)
    requires IsLink(l) && GoodEps(cfg) && Weighted(rs) && SumW(Kept(cfg, rs)) > 0.0
    ensures Fuse(cfg, l, rs) <= Fuse(cfg, l, Kept(cfg, rs))
  {
    if Rejects(cfg, rs) {
      MeanOfHigh(cfg, l, rs);
      FuseIsPooled(cfg, l, rs);
      FuseIsPooled(cfg, l, High(cfg, rs));
      if cfg.fusion == LogOdds {
        LogisticMono(l, SumT(cfg, l, rs) / SumW(rs), SumT(cfg, l, High(cfg, rs)) / SumW(High(cfg, rs)));
      }
    }
  }

  lemma MeanOfHigh(cfg: Config, l: Link, rs: seq<Report>)
    requires IsLink(l) && GoodEps(cfg) && Weighted(rs) && SumW(High(cfg, rs)) > 0.0
    ensures SumW(rs) > 0.0
    ensures SumT(cfg, l, rs) / SumW(rs) <= SumT(cfg, l, High(cfg, rs)) / SumW(High(cfg, rs))
  {
    var high, low := High(cfg, rs), Low(cfg, rs);
    assert SumW(rs) == SumW(high) + SumW(low) by {
      HighLowSums(cfg, WeightOf, rs);
    }
    assert SumT(cfg, l, rs) == SumT(cfg, l, high) + SumT(cfg, l, low) by {
      HighLowSums(cfg, Share(cfg, l), rs);
    }
    HighLowWeighted(cfg, rs);
    assert (forall i | 0 <= i < |high| :: high[i].confidence >= cfg.outlierHigh)
        && (forall i | 0 <= i < |low| :: low[i].confidence < cfg.outlierHigh) by {
      HighLowMembers(cfg, rs);
      assert forall i | 0 <= i < |high| :: high[i] in high;
      assert forall i | 0 <= i < |low| :: low[i] in low;
    }
    MeanOfPart(cfg, l, SumT(cfg, l, rs), SumW(rs), high, low);
  }

  lemma MeanOfPart(cfg: Config, l: Link, t: real, w: real, high: seq<Report>, low: seq<Report>)
    requires IsLink(l) && GoodEps(cfg) && Weighted(high) && Weighted(low) && SumW(high) > 0.0
    requires t == SumT(cfg, l, high) + SumT(cfg, l, low) && w == SumW(high) + SumW(low)
    requires forall i | 0 <= i < |high| :: high[i].confidence >= cfg.outlierHigh
    requires forall i | 0 <= i < |low| :: low[i].confidence < cfg.outlierHigh
    ensures w > 0.0 && t / w <= SumT(cfg, l, high) / SumW(high)
  {
    SumOfNonNegative(low);
    var floor := Separator(cfg, l, high, low);
    DroppingLowTerms(t, w, SumT(cfg, l, high), SumW(high), SumT(cfg, l, low), SumW(low), floor);
  }

  lemma Separator(cfg: Config, l: Link, high: seq<Report>, low: seq<Report>) returns (floor: real)
    requires IsLink(l) && GoodEps(cfg) && Weighted(high) && Weighted(low)
    requires forall i | 0 <= i < |high| :: high[i].confidence >= cfg.outlierHigh
    requires forall i | 0 <= i < |low| :: low[i].confidence < cfg.outlierHigh
    ensures floor * SumW(high) <= SumT(cfg, l, high) && SumT(cfg, l, low) <= floor * SumW(low)
  {
    floor := Term(cfg, l, cfg.outlierHigh);
    assert floor * SumW(high) <= SumT(cfg, l, high) by {
      AboveThreshold(cfg, l, high);
    }
    assert SumT(cfg, l, low) <= floor * SumW(low) by {
      BelowThreshold(cfg, l, low);
    }
  }

  /** Every report that carries weight has confidence 0. */
  predicate Unconvinced(rs: seq<Report>) {
    forall i | 0 <= i < |rs| && rs[i].weight > 0.0 :: rs[i].confidence == 0.0
  }

  lemma {:induction false} LinearSumIsZeroIff(cfg: Config, l: Link, rs: seq<Report>)
    requires cfg.fusion == Linear && Weighted(rs) && forall i | 0 <= i < |rs| :: rs[i].confidence >= 0.0
    ensures SumT(cfg, l, rs) >= 0.0
    ensures SumT(cfg, l, rs) == 0.0 <==> Unconvinced(rs)
    decreases |rs|
  {
    if rs != [] {
      var init, last := rs[..|rs| - 1], rs[|rs| - 1];
      LinearSumIsZeroIff(cfg, l, init);
      ProductIsZeroIff(last.weight, last.confidence);
      assert forall i | 0 <= i < |init| :: init[i] == rs[i];
    }
  }

  lemma ProductIsZeroIff(w: real, c: real)
    requires w >= 0.0 && c >= 0.0
    ensures w * c >= 0.0
    ensures w * c == 0.0 <==> w == 0.0 || c == 0.0
  {
    if w > 0.0 && c > 0.0 {
      MulMonoStrict(w, 0.0, c);
    }
  }

  /** When rejection helps, told from the reports: exactly if those it keeps carry weight, or none did, or
      under linear fusion no report with weight is convinced at all.  Otherwise the score drops to 0. */
  lemma RejectionHelpsIff(cfg: Config, l: Link, rs: seq<Report>)
    requires IsLink(l) && GoodEps(cfg) && Weighted(rs)
    requires forall i | 0 <= i < |rs| :: rs[i].confidence >= 0.0
    ensures Fuse(cfg, l, rs) <= Fuse(cfg, l, Kept(cfg, rs)) <==>
            SumW(Kept(cfg, rs)) > 0.0 || SumW(rs) <= 0.0 || (cfg.fusion == Linear && Unconvinced(rs))
  {
    if SumW(Kept(cfg, rs)) > 0.0 {
      RejectionOnlyHelps(cfg, l, rs);
    } else if SumW(rs) > 0.0 {
      if cfg.fusion == Linear {
        LinearSumIsZeroIff(cfg, l, rs);
        QuotientIsZeroIff(SumT(cfg, l, rs), SumW(rs));
      } else {
        var least, greatest := FuseIsBetweenReports(cfg, l, rs);
        ClampMono(rs[least].confidence, rs[least].confidence, cfg.eps);
      }
    }
  }

  lemma QuotientIsZeroIff(x: real, s: real)
    requires s > 0.0 && x >= 0.0
    ensures x / s >= 0.0 && (x / s == 0.0 <==> x == 0.0)
  {
    DivIs(x, s);
    DivAtLeast(x, s, 0.0);
  }

  lemma {:induction false} HighMultiset(cfg: Config, rs: seq<Report>, r: Report)
    ensures multiset(High(cfg, rs))[r] == if r.confidence >= cfg.outlierHigh then multiset(rs)[r] else 0
    ensures multiset(Low(cfg, rs))[r] == if r.confidence < cfg.outlierHigh then multiset(rs)[r] else 0
    decreases |rs|
  {
    if rs != [] {
      assert rs == rs[..|rs| - 1] + [rs[|rs| - 1]];
      HighMultiset(cfg, rs[..|rs| - 1], r);
    }
  }

  /** Which reports are kept depends on the reports, not on their order. */
  lemma KeptPermute(cfg: Config, rs: seq<Report>, rs': seq<Report>)
    requires multiset(rs) == multiset(rs')
    ensures multiset(Kept(cfg, rs)) == multiset(Kept(cfg, rs'))
  {
    forall r ensures multiset(High(cfg, rs))[r] == multiset(High(cfg, rs'))[r] {
      HighMultiset(cfg, rs, r);
      HighMultiset(cfg, rs', r);
    }
    forall r ensures multiset(Low(cfg, rs))[r] == multiset(Low(cfg, rs'))[r] {
      HighMultiset(cfg, rs, r);
      HighMultiset(cfg, rs', r);
    }
    SameMembers(High(cfg, rs), High(cfg, rs'));
    SameMembers(Low(cfg, rs), Low(cfg, rs'));
  }

  lemma SameMembers(a: seq<Report>, b: seq<Report>)
    requires forall r :: multiset(a)[r] == multiset(b)[r]
    ensures multiset(a) == multiset(b) && |a| == |b| && forall r :: r in a <==> r in b
  {
    assert multiset(a) == multiset(b);
    assert |multiset(a)| == |a| && |multiset(b)| == |b|;
    assert forall r :: r in a <==> r in multiset(a);
    assert forall r :: r in b <==> r in multiset(b);
  }

  // ----- pools of like reports -----

  function Copies<T>(x: T, n: nat): (s: seq<T>)
    ensures |s| == n
  {
    if n == 0 then [] else Copies(x, n - 1) + [x]
  }

  lemma {:induction false} CopiesAre<T>(x: T, n: nat)
    ensures forall i | 0 <= i < n :: Copies(x, n)[i] == x
    ensures forall y | y in Copies(x, n) :: y == x
  {
    if n > 0 {
      CopiesAre(x, n - 1);
    }
  }

  lemma {:induction false} HighOfCopies(cfg: Config, r: Report, n: nat)
    requires r.confidence >= cfg.outlierHigh
    ensures High(cfg, Copies(r, n)) == Copies(r, n)
  {
    if n > 0 {
      HighOfCopies(cfg, r, n - 1);
      HighLowSnoc(cfg, Copies(r, n - 1), r);
    }
  }

  lemma {:induction false} LowOfCopies(cfg: Config, r: Report, n: nat)
    requires r.confidence >= cfg.outlierHigh
    ensures Low(cfg, Copies(r, n)) == []
  {
    if n > 0 {
      LowOfCopies(cfg, r, n - 1);
      HighLowSnoc(cfg, Copies(r, n - 1), r);
    }
  }

  lemma {:induction false} SumWOfCopies(r: Report, n: nat)
    ensures r.weight == 0.0 ==> SumW(Copies(r, n)) == 0.0
    ensures r.weight == 1.0 ==> SumW(Copies(r, n)) == n as real
  {
    if n > 0 {
      SumWOfCopies(r, n - 1);
      SumOfSnoc(WeightOf, Copies(r, n - 1), r);
    }
  }
}
