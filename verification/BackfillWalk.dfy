/**
 The walk of `backfill_step`: one batch of files after a stored cursor, series by series.  The reference
 is a single pass over the flat list of all (series, file) pairs.
 */
module BackfillWalk {
  import opened Options
  import opened SortedSets

  /** The existing library: the episode files of each series, by id. */
  type Library = map<nat, set<nat>>

  datatype Pair = Pair(series: nat, file: nat)

  /** Where a step starts: everywhere, at a series, or after a file of a series. */
  datatype Start = Beginning | AtSeries(series: nat) | AfterFile(cursor: Pair)

  function FromCursor(cursor: Option<Pair>): Start {
    match cursor case Some(p) => AfterFile(p) case None => Beginning
  }

  /** Ascending by series, then by file. */
  predicate Less(p: Pair, q: Pair) {
    p.series < q.series || (p.series == q.series && p.file < q.file)
  }

  predicate Ahead(start: Start, p: Pair) {
    match start
    case Beginning => true
    case AtSeries(s) => p.series >= s
    case AfterFile(c) => Less(c, p)
  }

  // ----- the flat walk -----

  function PairsOf(series: nat, files: seq<nat>): seq<Pair> {
    if files == [] then [] else [Pair(series, files[0])] + PairsOf(series, files[1..])
  }

  /** The files of a series, ascending. */
  function FilesOf(library: Library, id: nat): seq<nat> {
    if id in library then Sorted(library[id]) else []
  }

  function PairsIn(library: Library, ids: seq<nat>): seq<Pair> {
    if ids == [] then [] else PairsOf(ids[0], FilesOf(library, ids[0])) + PairsIn(library, ids[1..])
  }

  /** The whole library, ascending. */
  function FlatWalk(library: Library): seq<Pair> {
    PairsIn(library, Sorted(library.Keys))
  }

  function Filter(start: Start, pairs: seq<Pair>): seq<Pair> {
    if pairs == [] then []
    else if Ahead(start, pairs[0]) then [pairs[0]] + Filter(start, pairs[1..])
    else Filter(start, pairs[1..])
  }

  /** What is left to do from a start. */
  function Todo(library: Library, start: Start): seq<Pair> {
    Filter(start, FlatWalk(library))
  }

  function Min(a: nat, b: nat): nat {
    if a <= b then a else b
  }

  /** What one step of a batch size handles. */
  function Taken(todo: seq<Pair>, n: int): seq<Pair> {
    if n <= 0 then [] else todo[..Min(n, |todo|)]
  }

  /** The cursor a step stores.  It is null when the walk is complete, and also when the batch is empty;
      a batch that ends exactly with the last file completes the walk only if no series comes after. */
  function CursorAfter(todo: seq<Pair>, n: int, lastSeries: nat): Option<Pair> {
    if n <= 0 || |todo| < n then None
    else if |todo| == n && todo[n - 1].series == lastSeries then None
    else Some(todo[n - 1])
  }

  function NextCursor(library: Library, todo: seq<Pair>, n: int): Option<Pair> {
    CursorAfter(todo, n, LastSeries(library))
  }

  function LastSeries(library: Library): nat {
    var ids := Sorted(library.Keys);
    if ids == [] then 0 else ids[|ids| - 1]
  }

  // ----- the flat walk is the library, ascending -----

  ghost predicate Ascending(pairs: seq<Pair>) {
    forall i, j | 0 <= i < j < |pairs| :: Less(pairs[i], pairs[j])
  }

  lemma {:induction false} PairsOfMeaning(series: nat, files: seq<nat>)
    ensures |PairsOf(series, files)| == |files|
    ensures forall i | 0 <= i < |files| :: PairsOf(series, files)[i] == Pair(series, files[i])
  {
    if files != [] {
      PairsOfMeaning(series, files[1..]);
    }
  }

  lemma PairsOfHas(series: nat, files: seq<nat>)
    ensures forall p :: p in PairsOf(series, files) <==> p.series == series && p.file in files
  {
    PairsOfMeaning(series, files);
    forall p ensures p in PairsOf(series, files) <==> p.series == series && p.file in files {
      if p.series == series && p.file in files {
        var i :| 0 <= i < |files| && files[i] == p.file;
        assert PairsOf(series, files)[i] == p;
      }
    }
  }

  lemma {:induction false} PairsInHas(library: Library, ids: seq<nat>)
    ensures forall p :: p in PairsIn(library, ids) <==> p.series in ids && p.file in FilesOf(library, p.series)
  {
    if ids != [] {
      assert ids == [ids[0]] + ids[1..];
      PairsInHas(library, ids[1..]);
      PairsOfHas(ids[0], FilesOf(library, ids[0]));
    }
  }

  lemma AscendingConcat(a: seq<Pair>, b: seq<Pair>)
    requires Ascending(a) && Ascending(b) && forall p, q | p in a && q in b :: Less(p, q)
    ensures Ascending(a + b)
  {
    forall i, j | 0 <= i < j < |a + b| ensures Less((a + b)[i], (a + b)[j]) {
      if i < |a| <= j {
        assert a[i] in a && b[j - |a|] in b;
      }
    }
  }

  lemma {:induction false} PairsInAscend(library: Library, ids: seq<nat>)
    requires forall i, j | 0 <= i < j < |ids| :: ids[i] < ids[j]
    ensures Ascending(PairsIn(library, ids))
  {
    if ids != [] {
      var head := PairsOf(ids[0], FilesOf(library, ids[0]));
      SortedMeaning(if ids[0] in library then library[ids[0]] else {});
      PairsOfMeaning(ids[0], FilesOf(library, ids[0]));
      PairsOfHas(ids[0], FilesOf(library, ids[0]));
      PairsInAscend(library, ids[1..]);
      PairsInHas(library, ids[1..]);
      forall p, q | p in head && q in PairsIn(library, ids[1..]) ensures Less(p, q) {
        assert q.series in ids[1..];
      }
      AscendingConcat(head, PairsIn(library, ids[1..]));
    }
  }

  /** The flat walk names every file of every series, once, ascending by series and then by file. */
  lemma FlatWalkMeaning(library: Library)
    ensures Ascending(FlatWalk(library))
    ensures forall p :: p in FlatWalk(library) <==> p.series in library && p.file in library[p.series]
    ensures forall i, j | 0 <= i < j < |FlatWalk(library)| :: FlatWalk(library)[i] != FlatWalk(library)[j]
  {
    var ids := Sorted(library.Keys);
    SortedMeaning(library.Keys);
    PairsInAscend(library, ids);
    PairsInHas(library, ids);
    forall id | id in library ensures forall f :: f in FilesOf(library, id) <==> f in library[id] {
      SortedMeaning(library[id]);
    }
  }

  // ----- filtering -----

  lemma {:induction false} FilterHas(start: Start, pairs: seq<Pair>)
    ensures forall p :: p in Filter(start, pairs) <==> p in pairs && Ahead(start, p)
  {
    if pairs != [] {
      assert pairs == [pairs[0]] + pairs[1..];
      FilterHas(start, pairs[1..]);
    }
  }

  lemma {:induction false} FilterConcat(start: Start, a: seq<Pair>, b: seq<Pair>)
    ensures Filter(start, a + b) == Filter(start, a) + Filter(start, b)
  {
    if a == [] {
      assert a + b == b;
    } else {
      assert (a + b)[1..] == a[1..] + b;
      FilterConcat(start, a[1..], b);
    }
  }

  lemma {:induction false} FilterAll(start: Start, pairs: seq<Pair>)
    requires forall p | p in pairs :: Ahead(start, p)
    ensures Filter(start, pairs) == pairs
  {
    if pairs != [] {
      assert pairs[0] in pairs && forall p | p in pairs[1..] :: p in pairs;
      FilterAll(start, pairs[1..]);
    }
  }

  lemma {:induction false} FilterNone(start: Start, pairs: seq<Pair>)
    requires forall p | p in pairs :: !Ahead(start, p)
    ensures Filter(start, pairs) == []
  {
    if pairs != [] {
      assert pairs[0] in pairs && forall p | p in pairs[1..] :: p in pairs;
      FilterNone(start, pairs[1..]);
    }
  }

  /** On an ascending list a start leaves a suffix: filtering drops what is not ahead and keeps the rest. */
  lemma {:induction false} FilterIsSuffix(start: Start, pairs: seq<Pair>)
    requires Ascending(pairs)
    ensures |Filter(start, pairs)| <= |pairs|
    ensures Filter(start, pairs) == pairs[|pairs| - |Filter(start, pairs)|..]
  {
    if pairs != [] {
      if Ahead(start, pairs[0]) {
        forall p | p in pairs ensures Ahead(start, p) {
          var i :| 0 <= i < |pairs| && pairs[i] == p;
          assert i > 0 ==> Less(pairs[0], pairs[i]);
        }
        FilterAll(start, pairs);
      } else {
        FilterIsSuffix(start, pairs[1..]);
      }
    }
  }

  lemma FilterAfter(pairs: seq<Pair>, k: nat)
    requires Ascending(pairs) && k < |pairs|
    ensures Filter(AfterFile(pairs[k]), pairs) == pairs[k + 1..]
  {
    var start := AfterFile(pairs[k]);
    var before, after := pairs[..k + 1], pairs[k + 1..];
    assert pairs == before + after;
    FilterConcat(start, before, after);
    forall p | p in before ensures !Ahead(start, p) {
      var i :| 0 <= i < |before| && before[i] == p;
      assert i < k ==> Less(pairs[i], pairs[k]);
    }
    forall p | p in after ensures Ahead(start, p) {
      var i :| 0 <= i < |after| && after[i] == p;
      assert Less(pairs[k], pairs[k + 1 + i]);
    }
    FilterNone(start, before);
    FilterAll(start, after);
  }

  /** Resuming after the k-th file to do leaves exactly the rest. */
  lemma TodoAfter(library: Library, start: Start, k: nat)
    requires k < |Todo(library, start)|
    ensures Todo(library, AfterFile(Todo(library, start)[k])) == Todo(library, start)[k + 1..]
  {
    var flat, todo := FlatWalk(library), Todo(library, start);
    FlatWalkMeaning(library);
    FilterIsSuffix(start, flat);
    var j := |flat| - |todo| + k;
    assert flat[j] == todo[k];
    FilterAfter(flat, j);
    assert flat[j + 1..] == todo[k + 1..];
  }

  // ----- the batched walk refines the flat one -----

  function StepTaken(library: Library, cursor: Option<Pair>, n: int): seq<Pair> {
    Taken(Todo(library, FromCursor(cursor)), n)
  }

  function StepCursor(library: Library, cursor: Option<Pair>, n: int): Option<Pair> {
    NextCursor(library, Todo(library, FromCursor(cursor)), n)
  }

  lemma CursorProgress(todo: seq<Pair>, n: int, lastSeries: nat)
    requires n >= 1 && CursorAfter(todo, n, lastSeries).Some?
    ensures |todo| >= n && CursorAfter(todo, n, lastSeries).value == todo[n - 1]
    ensures Taken(todo, n) == todo[..n] && todo == todo[..n] + todo[n..]
  {
  }

  lemma StepProgress(library: Library, cursor: Option<Pair>, n: int)
    requires n >= 1 && StepCursor(library, cursor, n).Some?
    ensures var todo := Todo(library, FromCursor(cursor));
            && |todo| >= n && StepTaken(library, cursor, n) == todo[..n]
            && Todo(library, FromCursor(StepCursor(library, cursor, n))) == todo[n..]
  {
    CursorProgress(Todo(library, FromCursor(cursor)), n, LastSeries(library));
    TodoAfter(library, FromCursor(cursor), n - 1);
  }

  /** All files handled by steps of size n, until one of them nulls the cursor. */
  function AllSteps(library: Library, cursor: Option<Pair>, n: int): seq<Pair>
    requires n >= 1
    decreases |Todo(library, FromCursor(cursor))|
  {
    var next := StepCursor(library, cursor, n);
    if next.None? then StepTaken(library, cursor, n)
    else
      StepProgress(library, cursor, n);
      StepTaken(library, cursor, n) + AllSteps(library, next, n)
  }

  lemma LastStep(todo: seq<Pair>, n: int, lastSeries: nat)
    requires n >= 1 && CursorAfter(todo, n, lastSeries).None?
    ensures Taken(todo, n) == todo
  {
  }

  lemma {:induction false} StepsHandleTodo(library: Library, cursor: Option<Pair>, n: int)
    requires n >= 1
    ensures AllSteps(library, cursor, n) == Todo(library, FromCursor(cursor))
    decreases |Todo(library, FromCursor(cursor))|
  {
    var todo := Todo(library, FromCursor(cursor));
    if StepCursor(library, cursor, n).Some? {
      StepProgress(library, cursor, n);
      StepsHandleTodo(library, StepCursor(library, cursor, n), n);
      CursorProgress(todo, n, LastSeries(library));
    } else {
      LastStep(todo, n, LastSeries(library));
    }
  }

  /** From a null cursor, steps of any positive size handle exactly the flat walk, in order, and then
      null the cursor. */
  lemma StepsRefineFlatWalk(library: Library, n: int)
    requires n >= 1
    ensures AllSteps(library, None, n) == FlatWalk(library)
  {
    StepsHandleTodo(library, None, n);
    FilterAll(Beginning, FlatWalk(library));
  }

  lemma BatchesAdd(todo: seq<Pair>, n: int, m: int, lastSeries: nat)
    requires n >= 1 && m >= 1 && |todo| >= n
    ensures todo[..n] + Taken(todo[n..], m) == Taken(todo, n + m)
    ensures CursorAfter(todo[n..], m, lastSeries) == CursorAfter(todo, n + m, lastSeries)
  {
    assert |todo| >= n + m ==> todo[n..][m - 1] == todo[n + m - 1];
  }

  /** Two steps are one step of both sizes, unless the first completes the walk. */
  lemma StepsAdd(library: Library, cursor: Option<Pair>, n: int, m: int)
    requires n >= 1 && m >= 1 && StepCursor(library, cursor, n).Some?
    ensures var next := StepCursor(library, cursor, n);
            && StepTaken(library, cursor, n) + StepTaken(library, next, m) == StepTaken(library, cursor, n + m)
            && StepCursor(library, next, m) == StepCursor(library, cursor, n + m)
  {
    StepProgress(library, cursor, n);
    BatchesAdd(Todo(library, FromCursor(cursor)), n, m, LastSeries(library));
  }

  /** The exception is exact: after a step that completes the walk the next one starts over. */
  lemma StepsAddIff(library: Library, cursor: Option<Pair>, n: int, m: int)
    requires n >= 1 && m >= 1
    ensures StepTaken(library, cursor, n) + StepTaken(library, StepCursor(library, cursor, n), m) == StepTaken(library, cursor, n + m)
            <==> StepCursor(library, cursor, n).Some? || FlatWalk(library) == []
  {
    if StepCursor(library, cursor, n).Some? {
      StepsAdd(library, cursor, n, m);
    } else {
      FilterAll(Beginning, FlatWalk(library));
      var first, again := StepTaken(library, cursor, n), StepTaken(library, None, m);
      assert StepTaken(library, cursor, n + m) == first;
      assert |first + again| == |first| + |again|;
      assert first + [] == first;
    }
  }

  /** A step handles nothing and yet moves the cursor in just one case: the walk is done, or the batch
      size is not positive, and then the place in the walk is lost. */
  lemma EmptyStepNullsTheCursor(library: Library, cursor: Option<Pair>, n: int)
    ensures StepTaken(library, cursor, n) == [] <==> n <= 0 || Todo(library, FromCursor(cursor)) == []
    ensures StepTaken(library, cursor, n) == [] ==> StepCursor(library, cursor, n).None?
  {
  }

  /** The walk is complete exactly when nothing is left after the step, except that a batch that ends with
      the last file while empty series follow leaves its cursor for one more, empty, step. */
  lemma CompletesIff(library: Library, cursor: Option<Pair>, n: int)
    requires n >= 1
    ensures var todo := Todo(library, FromCursor(cursor));
            StepCursor(library, cursor, n).None? <==>
            StepTaken(library, cursor, n) == todo && (|todo| == n ==> todo[n - 1].series == LastSeries(library))
  {
    var todo := Todo(library, FromCursor(cursor));
    assert |todo| > n ==> |todo[..n]| != |todo|;
  }
}
