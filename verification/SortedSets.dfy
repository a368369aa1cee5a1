/** Sets of ids in ascending order. */
module SortedSets {
  lemma {:induction false} LeastExists(s: set<nat>) returns (least: nat)
    requires s != {}
    ensures least in s && forall x | x in s :: least <= x
    decreases |s|
  {
    least :| least in s;
    var rest := s - {least};
    if rest != {} {
      var y := LeastExists(rest);
      assert forall x | x in s :: x == least || x in rest;
      if y < least {
        least := y;
      }
    }
    forall x | x in s ensures least <= x {
      if x !in rest {
      }
    }
  }

  lemma LeastIsThere(s: set<nat>)
    requires s != {}
    ensures exists least :: least in s && forall x | x in s :: least <= x
  {
    var least := LeastExists(s);
  }

  function Least(s: set<nat>): (least: nat)
    requires s != {}
    ensures least in s && forall x | x in s :: least <= x
  {
    LeastIsThere(s);
    var least :| least in s && forall x | x in s :: least <= x;
    least
  }

  /** `sorted(ids)`. */
  function Sorted(s: set<nat>): seq<nat>
    decreases |s|
  {
    if s == {} then [] else [Least(s)] + Sorted(s - {Least(s)})
  }

  lemma {:induction false} SortedMeaning(s: set<nat>)
    ensures forall x :: x in s <==> x in Sorted(s)
    ensures forall i, j | 0 <= i < j < |Sorted(s)| :: Sorted(s)[i] < Sorted(s)[j]
    decreases |s|
  {
    if s != {} {
      var rest := Sorted(s - {Least(s)});
      SortedMeaning(s - {Least(s)});
      assert forall j | 0 <= j < |rest| :: rest[j] in rest;
      assert Sorted(s) == [Least(s)] + rest;
    }
  }
}
