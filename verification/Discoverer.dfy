/** The loops of `Discoverer`: a poll of the history and a step of the backfill. */
module Discoverers {
  import opened Options
  import opened SortedSets
  import opened BackfillWalk
  import opened Discovery

  /** One instance's stored discovery state.  A batch stages its rows and commits them at its end. */
  class Discoverer {
    var watermark: nat
    var cursor: Option<Pair>
    var files: seq<FileRow>
    var jobs: seq<JobRow>

    ghost function Stored(): Db
      reads this
    {
      Db(watermark, cursor, files, jobs)
    }

    constructor ()
      ensures Stored() == Db(0, None, [], [])
    {
      watermark, cursor, files, jobs := 0, None, [], [];
    }

    method Commit(db: Db)
      modifies this
      ensures Stored() == db
    {
      watermark, cursor, files, jobs := db.watermark, db.cursor, db.files, db.jobs;
    }

    /** Returns whether it raised, and how many files it created and failed to read. */
    method PollOnce(records: seq<Record>, env: Env) returns (raised: bool, created: nat, skipped: nat)
      modifies this
      ensures raised <==> PollOutcome(old(Stored()), records, env).None?
      ensures raised ==> Stored() == old(Stored())
      ensures !raised ==> PollOutcome(old(Stored()), records, env) == Some(Stored())
      ensures !raised ==> created == |files| - old(|files|) && skipped == RecordFailures(old(Stored()), records, env)
    {
      if records == [] {
        return false, 0, 0;
      }
      var db;
      raised, db, created, skipped := HandleRecords(Db(watermark, cursor, files, jobs), records, env);
      if !raised {
        Commit(db.(watermark := records[|records| - 1].id));
      }
    }

    /** Returns whether it raised, and how many files it created and failed to read. */
    method BackfillStep(library: Library, batchSize: int, reset: bool, seriesId: Option<nat>, env: Env)
      returns (raised: bool, created: nat, skipped: nat)
      modifies this
      ensures raised ==> Stored() == old(Stored())
      ensures var outcome := FillOutcome(old(Stored()), library, StartOf(old(cursor), reset, seriesId), batchSize, env);
              && (!raised ==> outcome == Some(Stored()))
              && (raised ==> outcome.None? || exists id :: id in library && env.listingFails(id))
      ensures !raised ==>
                && created == |files| - old(|files|)
                && skipped == Failures(old(Stored()), StepPairs(library, StartOf(old(cursor), reset, seriesId), batchSize), env)
    {
      var start := StartOf(cursor, reset, seriesId);
      var db;
      raised, db, created, skipped := WalkLibrary(Db(watermark, cursor, files, jobs), library, start, batchSize, env);
      if !raised {
        Commit(db);
      }
    }
  }

  // ----- the poll loop -----

  method HandleRecords(db0: Db, records: seq<Record>, env: Env) returns (raised: bool, db: Db, created: nat, skipped: nat)
    ensures raised <==> Polled(db0, records, env).None?
    ensures !raised ==> Polled(db0, records, env) == Some(db) && |db.files| == |db0.files| + created
    ensures !raised ==> skipped == RecordFailures(db0, records, env)
  {
    raised, db, created, skipped := false, db0, 0, 0;
    for i := 0 to |records|
      invariant !raised && Polled(db0, records[..i], env) == Some(db)
      invariant |db.files| == |db0.files| + created && skipped == RecordFailures(db0, records[..i], env)
    {
      assert records[..i + 1][..i] == records[..i];
      var fate;
      db, fate := HandleRecord(db, records[i], env.answer(i), env.sight(i));
      if fate == Raised {
        PolledPrefix(db0, records, env, i + 1);
        raised := true;
        return;
      }
      if fate == Created {
        created := created + 1;
      }
      if fate == Failed {
        skipped := skipped + 1;
      }
    }
    assert records[..|records|] == records;
  }

  // ----- the backfill loops -----

  /** The files one step handles. */
  function StepPairs(library: Library, start: Start, n: int): seq<Pair> {
    Taken(Todo(library, start), n)
  }

  method WalkLibrary(db0: Db, library: Library, start: Start, batchSize: int, env: Env)
    returns (raised: bool, db: Db, created: nat, skipped: nat)
    ensures !raised ==> FillOutcome(db0, library, start, batchSize, env) == Some(db)
    ensures !raised ==> |db.files| == |db0.files| + created
    ensures !raised ==> skipped == Failures(db0, StepPairs(library, start, batchSize), env)
    ensures raised ==> FillOutcome(db0, library, start, batchSize, env).None? || exists id :: id in library && env.listingFails(id)
  {
    var all := Sorted(library.Keys);
    var idx: nat := StartIndex(all, start);
    var b := Batch(db0, 0, None, 0, 0);
    ghost var done: seq<Pair> := [];
    ghost var walk := Walk(db0, library, all, start, Todo(library, start), batchSize, env);
    WalkBegins(walk, idx);
    var exhausted := true;
    while exhausted && idx < |all| && b.processed < batchSize
      invariant idx <= |all|
      invariant if exhausted then BetweenSeries(walk, done, idx, b) else idx < |all| && MidSeries(walk, done, b)
      decreases exhausted, |all| - idx
    {
      raised, exhausted, b, done := OneSeries(walk, done, b, library, all, start, idx, batchSize, env);
      if raised {
        return true, db0, 0, 0;
      }
      if exhausted {
        idx := idx + 1;
      }
    }
    var newCursor := if idx >= |all| then None else b.cursor;
    WalkEnds(walk, done, idx, b, newCursor);
    return false, b.db.(cursor := newCursor), b.created, b.skipped;
  }

  /** The outer loop's body: list a series' files, drop those up to the cursor, handle the rest. */
  method OneSeries(ghost walk: Walk, ghost done: seq<Pair>, b: Batch, library: Library, all: seq<nat>, start: Start, idx: nat,
                   batchSize: int, env: Env)
    returns (raised: bool, exhausted: bool, next: Batch, ghost done': seq<Pair>)
    requires walk.library == library && walk.all == all && walk.start == start && walk.n == batchSize && walk.env == env
    requires idx < |all| && b.processed < batchSize && BetweenSeries(walk, done, idx, b)
    ensures raised ==> Filled(walk.db0, Taken(walk.todo, batchSize), env).None? || exists id :: id in library && env.listingFails(id)
    ensures !raised && exhausted ==> BetweenSeries(walk, done', idx + 1, next)
    ensures !raised && !exhausted ==> MidSeries(walk, done', next)
  {
    var series := all[idx];
    if env.listingFails(series) {
      assert series in library by {
        InLibrary(library, all);
        assert series in all;
      }
      return true, false, b, done;
    }
    var kept := SelectFiles(start, series, FilesOf(library, series));
    raised, exhausted, next, done' := WalkSeries(walk.db0, done, b, series, kept, batchSize, env);
    if raised {
      RaisedInWalk(walk, done, done', b, kept, idx);
    } else if exhausted {
      SeriesExhausted(walk, done, done', b, next, kept, idx);
    } else {
      BatchFilled(walk, done, done', b, next, kept, idx);
    }
  }

  /** The progress of a step. */
  datatype Batch = Batch(db: Db, processed: nat, cursor: Option<Pair>, created: nat, skipped: nat)

  /** What stays the same during a step. */
  datatype Walk = Walk(db0: Db, library: Library, all: seq<nat>, start: Start, todo: seq<Pair>, n: int, env: Env)

  /** The batch has handled `done`: its staged rows, its counts and its cursor say so. */
  ghost predicate InStep(db0: Db, done: seq<Pair>, b: Batch, env: Env) {
    && Filled(db0, done, env) == Some(b.db) && b.processed == |done| && b.cursor == LastOf(done)
    && |b.db.files| == |db0.files| + b.created && b.skipped == Failures(db0, done, env)
  }

  /** All series before this one are done with. */
  ghost predicate BetweenSeries(w: Walk, done: seq<Pair>, idx: nat, b: Batch) {
    && idx <= |w.all| && InStep(w.db0, done, b, w.env)
    && Walked(w.library, w.all, w.start, done, idx, w.todo)
    && (|done| > 0 ==> |done| <= w.n)
    && (|done| == w.n && w.n > 0 ==> idx > 0 && done[w.n - 1].series == w.all[idx - 1])
    && (idx < |w.all| ==> StartReached(w.all, w.start, idx))
  }

  /** The batch filled up within a series. */
  ghost predicate MidSeries(w: Walk, done: seq<Pair>, b: Batch) {
    && InStep(w.db0, done, b, w.env)
    && Listed(w.library, w.all) && w.todo == Todo(w.library, w.start)
    && done <= w.todo && 0 < |done| == w.n < |w.todo|
  }

  // ----- one record, one file, one series -----

  method FileExists(files: seq<FileRow>, file: nat) returns (found: bool)
    ensures found == Exists(files, file)
  {
    for i := 0 to |files|
      invariant forall j | 0 <= j < i :: files[j].file != file
    {
      if files[i].file == file {
        return true;
      }
    }
    return false;
  }

  method CaptureFile(db: Db, pair: Pair, sight: Sight) returns (next: Db, fate: Fate)
    ensures fate == Look(db.files, pair.file, sight) && next == Captured(db, pair, sight)
  {
    next := db;
    var exists_ := FileExists(db.files, pair.file);
    if exists_ {
      return db, Known;
    }
    match sight {
      case Unmapped => fate := Skipped;
      case Unwatched => fate := Skipped;
      case Inaccessible => fate := Failed;
      case Missing => fate := Skipped;
      case Breaks => fate := Raised;
      case Unreadable => fate := Failed;
      case Readable =>
        next := db.(files := db.files + [FileRow(pair.series, pair.file)], jobs := db.jobs + [JobRow(|db.files|)]);
        fate := Created;
    }
  }

  method HandleRecord(db: Db, r: Record, answer: Answer, sight: Sight) returns (next: Db, fate: Fate)
    ensures fate == RecordFate(db.files, r, answer, sight)
    ensures next == if fate == Created then Captured(db, Pair(r.series, r.file.value), Readable) else db
  {
    if r.file.None? {
      return db, Skipped;
    }
    var known := FileExists(db.files, r.file.value);
    if known {
      return db, Known;
    }
    match answer {
      case NotFound => return db, Skipped;
      case Refused => return db, Raised;
      case Found => next, fate := CaptureFile(db, Pair(r.series, r.file.value), sight);
    }
  }

  ghost function LastOf(done: seq<Pair>): Option<Pair> {
    if done == [] then None else Some(done[|done| - 1])
  }

  method StartIndex(all: seq<nat>, start: Start) returns (idx: nat)
    ensures idx <= |all|
    ensures start.Beginning? ==> idx == 0
    ensures !start.Beginning? ==>
              && (forall j | 0 <= j < idx :: all[j] < StartSeries(start))
              && (idx < |all| ==> all[idx] >= StartSeries(start))
  {
    if start.Beginning? {
      return 0;
    }
    idx := 0;
    while idx < |all| && all[idx] < StartSeries(start)
      invariant idx <= |all| && forall j | 0 <= j < idx :: all[j] < StartSeries(start)
    {
      idx := idx + 1;
    }
  }

  function StartSeries(start: Start): nat
    requires !start.Beginning?
  {
    match start
    case AtSeries(s) => s
    case AfterFile(c) => c.series
  }

  /** Only the cursor's own series is filtered. */
  method SelectFiles(start: Start, series: nat, files: seq<nat>) returns (kept: seq<nat>)
    requires !start.Beginning? ==> series >= StartSeries(start)
    ensures kept == KeepFiles(start, series, files)
  {
    if !start.AfterFile? || series != start.cursor.series {
      KeepsAll(start, series, files);
      return files;
    }
    kept := [];
    var i := |files|;
    while i > 0
      invariant 0 <= i <= |files| && kept == KeepFiles(start, series, files[i..])
    {
      i := i - 1;
      assert files[i..][1..] == files[i + 1..];
      if files[i] > start.cursor.file {
        kept := [files[i]] + kept;
      }
    }
  }

  lemma {:induction false} KeepsAll(start: Start, series: nat, files: seq<nat>)
    requires !start.Beginning? ==> series >= StartSeries(start)
    requires !start.AfterFile? || series != start.cursor.series
    ensures KeepFiles(start, series, files) == files
  {
    if files != [] {
      KeepsAll(start, series, files[1..]);
    }
  }

  /** The inner loop: the files of one series, until the batch is full. */
  method WalkSeries(ghost db0: Db, ghost done: seq<Pair>, b: Batch, series: nat, files: seq<nat>, batchSize: int, env: Env)
    returns (raised: bool, exhausted: bool, next: Batch, ghost done': seq<Pair>)
    requires InStep(db0, done, b, env) && b.processed < batchSize
    ensures HandledSome(done, done', PairsOf(series, files)) && |done'| <= batchSize
    ensures raised ==> Filled(db0, done', env).None?
    ensures !raised ==> InStep(db0, done', next, env)
    ensures !raised && exhausted ==> done' == done + PairsOf(series, files)
    ensures !raised && !exhausted ==> |done'| == batchSize && |done'| < |done| + |files|
  {
    next, done' := b, done;
    ghost var pairs := PairsOf(series, files);
    PairsOfMeaning(series, files);
    for j := 0 to |files|
      invariant done' == done + pairs[..j] && |done'| <= batchSize && InStep(db0, done', next, env)
    {
      if next.processed >= batchSize {
        return false, false, next, done';
      }
      var pair := Pair(series, files[j]);
      assert done + pairs[..j + 1] == done' + [pair];
      raised, next := HandleFile(db0, done', next, pair, env);
      done' := done' + [pair];
      if raised {
        return true, false, next, done';
      }
    }
    assert pairs[..|files|] == pairs;
    return false, true, next, done';
  }

  method HandleFile(ghost db0: Db, ghost done: seq<Pair>, b: Batch, pair: Pair, env: Env) returns (raised: bool, next: Batch)
    requires InStep(db0, done, b, env)
    ensures raised ==> Filled(db0, done + [pair], env).None?
    ensures !raised ==> InStep(db0, done + [pair], next, env)
  {
    var db, fate := CaptureFile(b.db, pair, env.sight(b.processed));
    FilledSnoc(db0, done, pair, env, b.db);
    raised := fate == Raised;
    next := Batch(db, b.processed + 1, Some(pair),
                  b.created + if fate == Created then 1 else 0, b.skipped + if fate == Failed then 1 else 0);
  }

  /** Some of the pairs, from the first on, were handled too. */
  ghost predicate HandledSome(done: seq<Pair>, done': seq<Pair>, pairs: seq<Pair>) {
    exists k | 0 <= k <= |pairs| :: done' == done + pairs[..k]
  }

  lemma FilledSnoc(db0: Db, done: seq<Pair>, pair: Pair, env: Env, db: Db)
    requires Filled(db0, done, env) == Some(db)
    ensures Filled(db0, done + [pair], env) ==
            if Look(db.files, pair.file, env.sight(|done|)) == Raised then None else Some(Captured(db, pair, env.sight(|done|)))
    ensures Failures(db0, done + [pair], env) ==
            Failures(db0, done, env) + if Look(db.files, pair.file, env.sight(|done|)) == Failed then 1 else 0
  {
    assert (done + [pair])[..|done|] == done;
  }

  // ----- why the nested loops follow the flat walk -----

  ghost predicate Listed(library: Library, all: seq<nat>) {
    all == Sorted(library.Keys)
  }

  /** What the series from this one on hold of what is ahead of the start. */
  ghost function Left(library: Library, all: seq<nat>, start: Start, idx: nat): seq<Pair>
    requires idx <= |all|
  {
    Filter(start, PairsIn(library, all[idx..]))
  }

  /** What was handled and what the remaining series hold make up what was to do. */
  ghost predicate Walked(library: Library, all: seq<nat>, start: Start, done: seq<Pair>, idx: nat, todo: seq<Pair>)
    requires idx <= |all|
  {
    Listed(library, all) && todo == Todo(library, start) && todo == done + Left(library, all, start, idx)
  }

  ghost predicate StartReached(all: seq<nat>, start: Start, idx: nat)
    requires idx < |all|
  {
    !start.Beginning? ==> all[idx] >= StartSeries(start)
  }

  lemma InLibrary(library: Library, all: seq<nat>)
    requires Listed(library, all)
    ensures forall id | id in all :: id in library
    ensures forall i, j | 0 <= i < j < |all| :: all[i] < all[j]
  {
    SortedMeaning(library.Keys);
  }

  lemma {:induction false} PairsInConcat(library: Library, a: seq<nat>, b: seq<nat>)
    ensures PairsIn(library, a + b) == PairsIn(library, a) + PairsIn(library, b)
  {
    if a == [] {
      assert a + b == b;
    } else {
      assert (a + b)[1..] == a[1..] + b;
      PairsInConcat(library, a[1..], b);
    }
  }

  lemma EarlierIsBehind(library: Library, ids: seq<nat>, start: Start)
    requires !start.Beginning? && forall j | 0 <= j < |ids| :: ids[j] < StartSeries(start)
    ensures Filter(start, PairsIn(library, ids)) == []
  {
    PairsInHas(library, ids);
    forall p | p in PairsIn(library, ids) ensures !Ahead(start, p) {
      assert p.series in ids;
    }
    FilterNone(start, PairsIn(library, ids));
  }

  lemma StartSkipsNothing(library: Library, all: seq<nat>, start: Start, idx: nat)
    requires Listed(library, all) && idx <= |all|
    requires start.Beginning? ==> idx == 0
    requires !start.Beginning? ==> forall j | 0 <= j < idx :: all[j] < StartSeries(start)
    ensures Walked(library, all, start, [], idx, Todo(library, start))
  {
    var before, after := all[..idx], all[idx..];
    var left := Filter(start, PairsIn(library, after));
    assert Filter(start, PairsIn(library, before)) == [] by {
      if idx > 0 {
        EarlierIsBehind(library, before, start);
      }
    }
    assert Todo(library, start) == [] + left by {
      assert all == before + after;
      PairsInConcat(library, before, after);
      FilterConcat(start, PairsIn(library, before), PairsIn(library, after));
    }
  }

  lemma NextReached(library: Library, all: seq<nat>, start: Start, idx: nat)
    requires Listed(library, all) && idx < |all| && StartReached(all, start, idx)
    ensures idx + 1 < |all| ==> all[idx] < all[idx + 1] && StartReached(all, start, idx + 1)
  {
    InLibrary(library, all);
  }

  lemma LeftStep(library: Library, all: seq<nat>, start: Start, idx: nat)
    requires idx < |all|
    ensures Left(library, all, start, idx) ==
            PairsOf(all[idx], KeepFiles(start, all[idx], FilesOf(library, all[idx]))) + Left(library, all, start, idx + 1)
  {
    assert all[idx..][1..] == all[idx + 1..];
    FilterConcat(start, PairsOf(all[idx], FilesOf(library, all[idx])), PairsIn(library, all[idx + 1..]));
    FilterSeries(start, all[idx], FilesOf(library, all[idx]));
  }

  /** Handling a series keeps to what is to do, and leaves the later series if all of it was handled. */
  lemma SeriesStep(library: Library, all: seq<nat>, start: Start, done: seq<Pair>, done': seq<Pair>, kept: seq<nat>,
                   idx: nat, todo: seq<Pair>)
    requires idx < |all| && Walked(library, all, start, done, idx, todo)
    requires kept == KeepFiles(start, all[idx], FilesOf(library, all[idx]))
    requires HandledSome(done, done', PairsOf(all[idx], kept))
    ensures done' <= todo
    ensures |done'| < |done| + |kept| ==> |done'| < |todo|
    ensures |done'| > |done| ==> done'[|done'| - 1].series == all[idx]
    ensures done' == done + PairsOf(all[idx], kept) ==> Walked(library, all, start, done', idx + 1, todo)
  {
    LeftStep(library, all, start, idx);
    PairsOfMeaning(all[idx], kept);
    SplitTodo(done, done', PairsOf(all[idx], kept), Left(library, all, start, idx + 1), todo);
  }

  lemma SplitTodo(done: seq<Pair>, done': seq<Pair>, pairs: seq<Pair>, rest: seq<Pair>, todo: seq<Pair>)
    requires todo == done + (pairs + rest) && HandledSome(done, done', pairs)
    ensures done' <= todo && (|done'| < |done| + |pairs| ==> |done'| < |todo|)
    ensures |done'| > |done| ==> done'[|done'| - 1] == pairs[|done'| - |done| - 1]
    ensures done' == done + pairs ==> todo == done' + rest
  {
  }

  lemma TakenPrefix(todo: seq<Pair>, n: int, k: nat)
    requires k <= n && k <= |todo|
    ensures k <= |Taken(todo, n)| && Taken(todo, n)[..k] == todo[..k]
  {
  }

  lemma RaisedInWalk(w: Walk, done: seq<Pair>, done': seq<Pair>, b: Batch, kept: seq<nat>, idx: nat)
    requires idx < |w.all|
    ensures InSeries(w, done, done', b, kept, idx) && Filled(w.db0, done', w.env).None? ==>
              Filled(w.db0, Taken(w.todo, w.n), w.env).None?
  {
    if InSeries(w, done, done', b, kept, idx) && Filled(w.db0, done', w.env).None? {
      SeriesStep(w.library, w.all, w.start, done, done', kept, idx, w.todo);
      TakenPrefix(w.todo, w.n, |done'|);
      assert w.todo[..|done'|] == done';
      FilledPrefix(w.db0, Taken(w.todo, w.n), w.env, |done'|);
    }
  }

  /** The batch went on from between two series into the next one. */
  ghost predicate InSeries(w: Walk, done: seq<Pair>, done': seq<Pair>, b: Batch, kept: seq<nat>, idx: nat)
    requires idx < |w.all|
  {
    && BetweenSeries(w, done, idx, b)
    && kept == KeepFiles(w.start, w.all[idx], FilesOf(w.library, w.all[idx]))
    && HandledSome(done, done', PairsOf(w.all[idx], kept)) && |done'| <= w.n
  }

  lemma SeriesExhausted(w: Walk, done: seq<Pair>, done': seq<Pair>, b: Batch, next: Batch, kept: seq<nat>, idx: nat)
    requires idx < |w.all| && |done| < w.n
    ensures InSeries(w, done, done', b, kept, idx) && InStep(w.db0, done', next, w.env)
            && done' == done + PairsOf(w.all[idx], kept) ==>
              BetweenSeries(w, done', idx + 1, next)
  {
    if InSeries(w, done, done', b, kept, idx) && done' == done + PairsOf(w.all[idx], kept) {
      SeriesStep(w.library, w.all, w.start, done, done', kept, idx, w.todo);
      NextReached(w.library, w.all, w.start, idx);
    }
  }

  lemma BatchFilled(w: Walk, done: seq<Pair>, done': seq<Pair>, b: Batch, next: Batch, kept: seq<nat>, idx: nat)
    requires idx < |w.all| && |done| < w.n && |done'| == w.n && |done'| < |done| + |kept|
    ensures InSeries(w, done, done', b, kept, idx) && InStep(w.db0, done', next, w.env) ==> MidSeries(w, done', next)
  {
    if InSeries(w, done, done', b, kept, idx) {
      SeriesStep(w.library, w.all, w.start, done, done', kept, idx, w.todo);
    }
  }

  lemma WalkBegins(w: Walk, idx: nat)
    requires Listed(w.library, w.all) && w.todo == Todo(w.library, w.start) && idx <= |w.all|
    requires w.start.Beginning? ==> idx == 0
    requires !w.start.Beginning? ==> forall j | 0 <= j < idx :: w.all[j] < StartSeries(w.start)
    requires idx < |w.all| ==> StartReached(w.all, w.start, idx)
    ensures BetweenSeries(w, [], idx, Batch(w.db0, 0, None, 0, 0))
  {
    StartSkipsNothing(w.library, w.all, w.start, idx);
  }

  lemma WalkEnds(w: Walk, done: seq<Pair>, idx: nat, b: Batch, cursor: Option<Pair>)
    requires || (BetweenSeries(w, done, idx, b) && (idx >= |w.all| || |done| >= w.n))
             || (MidSeries(w, done, b) && idx < |w.all|)
    requires cursor == if idx >= |w.all| then None else LastOf(done)
    ensures FillOutcome(w.db0, w.library, w.start, w.n, w.env) == Some(b.db.(cursor := cursor))
    ensures done == StepPairs(w.library, w.start, w.n)
  {
    WalkEndsAt(w, done, idx, b);
    BatchIsTaken(done, w.todo, w.n, LastSeries(w.library), cursor);
    assert Filled(w.db0, Taken(w.todo, w.n), w.env) == Some(b.db);
  }

  lemma WalkEndsAt(w: Walk, done: seq<Pair>, idx: nat, b: Batch)
    requires || (BetweenSeries(w, done, idx, b) && (idx >= |w.all| || |done| >= w.n))
             || (MidSeries(w, done, b) && idx < |w.all|)
    ensures done <= w.todo
    ensures idx >= |w.all| ==> done == w.todo && (|done| == w.n > 0 ==> done[w.n - 1].series == LastSeries(w.library))
    ensures idx < |w.all| && |done| == w.n > 0 ==> |w.todo| > w.n || done[w.n - 1].series != LastSeries(w.library)
  {
    InLibrary(w.library, w.all);
    if idx >= |w.all| {
      assert w.all[idx..] == [];
    }
  }

  lemma BatchIsTaken(done: seq<Pair>, todo: seq<Pair>, n: int, last: nat, cursor: Option<Pair>)
    requires done <= todo && (|done| > 0 ==> |done| <= n)
    requires done == todo || |done| >= n
    requires cursor == LastOf(done) || cursor == None
    requires cursor == None ==> done == [] || (done == todo && (|done| == n ==> done[n - 1].series == last))
    requires cursor != None ==> |done| == n && (|todo| > n || done[n - 1].series != last)
    ensures done == Taken(todo, n) && cursor == CursorAfter(todo, n, last)
  {
  }
}
