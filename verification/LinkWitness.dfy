/** The assumption on the log-odds transforms can be met: a rational pair that meets it. */
module LinkWitness {
  import opened Fusion

  function SampleLogit(c: real): real {
    if c <= 0.0 || c >= 1.0 then 0.0
    else if c < 0.5 then 1.0 - 1.0 / (2.0 * c)
    else 1.0 / (2.0 * (1.0 - c)) - 1.0
  }

  function SampleLogistic(x: real): real {
    if x < 0.0 then 1.0 / (2.0 * (1.0 - x)) else 1.0 - 1.0 / (2.0 * (1.0 + x))
  }

  lemma Inverse(a: real) returns (b: real)
    requires a > 0.0
    ensures b == 1.0 / a && b > 0.0 && a * b == 1.0
  {
    b := 1.0 / a;
    DivIs(1.0, a);
    if b <= 0.0 {
      MulMono(a, b, 0.0);
    }
  }

  lemma InverseAntitone(a: real, b: real)
    requires 0.0 < a < b
    ensures 1.0 / b < 1.0 / a
  {
    var p := Inverse(a);
    var q := Inverse(b);
    if p <= q {
      MulMono(a, p, q);
      MulMonoStrict(q, a, b);
    }
  }

  lemma InverseTwice(a: real, p: real)
    requires a > 0.0 && p > 0.0 && a * p == 1.0
    ensures 1.0 / p == a
  {
    DivCancel(1.0, p, a);
  }

  lemma LogitIncreases(a: real, b: real)
    requires 0.0 < a < b < 1.0
    ensures SampleLogit(a) < SampleLogit(b)
  {
    if b < 0.5 {
      InverseAntitone(2.0 * a, 2.0 * b);
    } else if a >= 0.5 {
      InverseAntitone(2.0 * (1.0 - b), 2.0 * (1.0 - a));
    } else {
      InverseAntitone(2.0 * a, 1.0);
      if b > 0.5 {
        InverseAntitone(2.0 * (1.0 - b), 1.0);
      }
    }
  }

  lemma LogisticInRange(x: real)
    ensures 0.0 < SampleLogistic(x) < 1.0 && SampleLogit(SampleLogistic(x)) == x
  {
    var y := if x < 0.0 then 1.0 - x else 1.0 + x;
    var p := Inverse(2.0 * y);
    assert p <= 0.5 by {
      if p > 0.5 {
        MulMonoStrict(2.0 * y, 0.5, p);
      }
    }
    if x < 0.0 {
      if p == 0.5 {
        assert 2.0 * y * 0.5 == y;
      }
      assert 2.0 * y * p == y * (2.0 * p);
      InverseTwice(y, 2.0 * p);
    } else {
      assert 2.0 * y * p == y * (2.0 * p);
      InverseTwice(y, 2.0 * p);
      assert 2.0 * (1.0 - (1.0 - p)) == 2.0 * p;
    }
  }

  lemma LogitInverts(c: real)
    requires 0.0 < c < 1.0
    ensures SampleLogistic(SampleLogit(c)) == c
  {
    if c < 0.5 {
      var p := Inverse(2.0 * c);
      InverseAntitone(2.0 * c, 1.0);
      assert p > 1.0;
      assert 2.0 * (1.0 - SampleLogit(c)) == 2.0 * p;
      assert c * (2.0 * p) == 2.0 * c * p;
      InverseTwice(c, 2.0 * p);
    } else {
      var p := Inverse(2.0 * (1.0 - c));
      if c > 0.5 {
        InverseAntitone(2.0 * (1.0 - c), 1.0);
      }
      assert p >= 1.0;
      assert (1.0 - c) * (2.0 * p) == 2.0 * (1.0 - c) * p;
      InverseTwice(1.0 - c, 2.0 * p);
    }
  }

  /** So every theorem that requires `IsLink` speaks of something. */
  lemma LinkExists()
    ensures IsLink(Link(SampleLogit, SampleLogistic))
  {
    var l := Link(SampleLogit, SampleLogistic);
    forall a, b | 0.0 < a < b < 1.0 ensures l.logit(a) < l.logit(b) {
      LogitIncreases(a, b);
    }
    forall x: real ensures 0.0 < l.logistic(x) < 1.0 && l.logit(l.logistic(x)) == x {
      LogisticInRange(x);
    }
    forall c | 0.0 < c < 1.0 ensures l.logistic(l.logit(c)) == c {
      LogitInverts(c);
    }
  }
}
