/** Discovery over whole runs: exactly once, and safe against batches that never commit. */
module DiscoverySafety {
  import opened Options
  import opened BackfillWalk
  import opened Discovery

  /** A record of a committed poll and how it came out. */
  datatype Handled = Handled(record: Record, fate: Fate)

  /** Sonarr's history, the stored state, and what committed polls have handled so far. */
  datatype World = World(history: seq<Record>, db: Db, log: seq<Handled>)

  /** Batches are serialized.  A poll sees some prefix of the history, as it stood when the client asked;
      `lost` says that the process died, or a listing failed, before the commit. */
  datatype Move =
    | Import(record: Record)
    | Poll(seen: nat, env: Env, lost: bool)
    | Backfill(library: Library, size: int, reset: bool, series: Option<nat>, env: Env, lost: bool)

  const START: World := World([], Db(0, None, [], []), [])

  /** `history_since`: the records above the watermark, ascending. */
  function Since(history: seq<Record>, watermark: nat): seq<Record> {
    if history == [] then []
    else
      var last := history[|history| - 1];
      Since(history[..|history| - 1], watermark) + if last.id > watermark then [last] else []
  }

  function Entries(db: Db, records: seq<Record>, env: Env): seq<Handled> {
    if records == [] then []
    else
      var i := |records| - 1;
      var before := Polled(db, records[..i], env);
      Entries(db, records[..i], env)
      + if before.None? then [] else [Handled(records[i], RecordFate(before.value.files, records[i], env.answer(i), env.sight(i)))]
  }

  predicate Newer(history: seq<Record>, r: Record) {
    r.id > 0 && (history != [] ==> r.id > history[|history| - 1].id)
  }

  function Next(w: World, m: Move): World {
    match m
    case Import(r) => if Newer(w.history, r) then w.(history := w.history + [r]) else w
    case Poll(seen, env, lost) =>
      var records := Since(if seen <= |w.history| then w.history[..seen] else w.history, w.db.watermark);
      var outcome := PollOutcome(w.db, records, env);
      if lost || outcome.None? then w
      else w.(db := outcome.value, log := w.log + Entries(w.db, records, env))
    case Backfill(library, size, reset, series, env, lost) =>
      var outcome := FillOutcome(w.db, library, StartOf(w.db.cursor, reset, series), size, env);
      if lost || outcome.None? then w else w.(db := outcome.value)
  }

  function After(w: World, moves: seq<Move>): World {
    if moves == [] then w else Next(After(w, moves[..|moves| - 1]), moves[|moves| - 1])
  }

  // ----- rows -----

  /** One row per episode file, and one job per row. */
  ghost predicate RowsInv(db: Db) {
    && (forall i, j | 0 <= i < j < |db.files| :: db.files[i].file != db.files[j].file)
    && |db.jobs| == |db.files|
    && forall i | 0 <= i < |db.jobs| :: db.jobs[i] == JobRow(i)
  }

  lemma CapturedKeepsRows(db: Db, pair: Pair, sight: Sight)
    requires RowsInv(db)
    ensures RowsInv(Captured(db, pair, sight)) && db.files <= Captured(db, pair, sight).files
    ensures Captured(db, pair, sight).watermark == db.watermark && Captured(db, pair, sight).cursor == db.cursor
  {
    if Look(db.files, pair.file, sight) == Created {
      forall i | 0 <= i < |db.files| ensures db.files[i].file != pair.file {
        assert db.files[i] in db.files;
      }
    }
  }

  lemma {:induction false} PolledKeepsRows(db: Db, records: seq<Record>, env: Env)
    requires RowsInv(db) && Polled(db, records, env).Some?
    ensures var d := Polled(db, records, env).value;
            RowsInv(d) && db.files <= d.files && d.watermark == db.watermark && d.cursor == db.cursor
    decreases |records|
  {
    if records != [] {
      var i := |records| - 1;
      PolledKeepsRows(db, records[..i], env);
      var before := Polled(db, records[..i], env).value;
      if records[i].file.Some? {
        CapturedKeepsRows(before, Pair(records[i].series, records[i].file.value), Readable);
      }
    }
  }

  lemma {:induction false} FilledKeepsRows(db: Db, pairs: seq<Pair>, env: Env)
    requires RowsInv(db) && Filled(db, pairs, env).Some?
    ensures var d := Filled(db, pairs, env).value;
            RowsInv(d) && db.files <= d.files && d.watermark == db.watermark && d.cursor == db.cursor
    decreases |pairs|
  {
    if pairs != [] {
      var i := |pairs| - 1;
      FilledKeepsRows(db, pairs[..i], env);
      CapturedKeepsRows(Filled(db, pairs[..i], env).value, pairs[i], env.sight(i));
    }
  }

  lemma CapturedExists(db: Db, pair: Pair, sight: Sight, file: nat)
    ensures Exists(Captured(db, pair, sight).files, file) <==> Exists(db.files, file) || (file == pair.file && sight == Readable)
  {
    var after := Captured(db, pair, sight);
    if Look(db.files, pair.file, sight) == Created {
      assert after.files[|db.files|] in after.files;
      assert forall row | row in db.files :: row in after.files;
    }
  }

  /** A committed batch leaves a row for exactly the files it could read and those that had one. */
  lemma {:induction false} FilledMeaning(db: Db, pairs: seq<Pair>, env: Env, file: nat)
    requires Filled(db, pairs, env).Some?
    ensures Exists(Filled(db, pairs, env).value.files, file) <==>
            Exists(db.files, file) || exists i :: 0 <= i < |pairs| && pairs[i].file == file && env.sight(i) == Readable
    decreases |pairs|
  {
    if pairs != [] {
      var n := |pairs| - 1;
      FilledMeaning(db, pairs[..n], env, file);
      CapturedExists(Filled(db, pairs[..n], env).value, pairs[n], env.sight(n), file);
    }
  }

  predicate Gets(r: Record, file: nat, answer: Answer, sight: Sight) {
    r.file == Some(file) && answer == Found && sight == Readable
  }

  lemma {:induction false} PolledMeaning(db: Db, records: seq<Record>, env: Env, file: nat)
    requires Polled(db, records, env).Some?
    ensures Exists(Polled(db, records, env).value.files, file) <==>
            Exists(db.files, file) || exists i :: 0 <= i < |records| && Gets(records[i], file, env.answer(i), env.sight(i))
    decreases |records|
  {
    if records != [] {
      var n := |records| - 1;
      PolledMeaning(db, records[..n], env, file);
      if records[n].file.Some? {
        CapturedExists(Polled(db, records[..n], env).value, Pair(records[n].series, records[n].file.value), Readable, file);
      }
    }
  }

  // ----- the log -----

  ghost predicate Ids(history: seq<Record>) {
    && (forall i | 0 <= i < |history| :: history[i].id > 0)
    && forall i, j | 0 <= i < j < |history| :: history[i].id < history[j].id
  }

  function Records(log: seq<Handled>): seq<Record> {
    if log == [] then [] else Records(log[..|log| - 1]) + [log[|log| - 1].record]
  }

  lemma {:induction false} RecordsConcat(a: seq<Handled>, b: seq<Handled>)
    ensures Records(a + b) == Records(a) + Records(b)
    decreases |b|
  {
    if b == [] {
      assert a + b == a;
    } else {
      RecordsConcat(a, b[..|b| - 1]);
      assert (a + b)[..|a + b| - 1] == a + b[..|b| - 1];
    }
  }

  /** On an ascending history the records above the watermark are the rest of it. */
  lemma {:induction false} SinceIsRest(history: seq<Record>, k: nat, watermark: nat)
    requires Ids(history) && k <= |history|
    requires if k == 0 then watermark == 0 else watermark == history[k - 1].id
    ensures Since(history, watermark) == history[k..]
    decreases |history|
  {
    if |history| == k {
      SinceNone(history, watermark);
    } else {
      SinceIsRest(history[..|history| - 1], k, watermark);
    }
  }

  lemma {:induction false} SinceNone(history: seq<Record>, watermark: nat)
    requires forall i | 0 <= i < |history| :: history[i].id <= watermark
    ensures Since(history, watermark) == []
    decreases |history|
  {
    if history != [] {
      SinceNone(history[..|history| - 1], watermark);
    }
  }

  /** A file that was created or known has its row. */
  ghost predicate Kept(files: seq<FileRow>, h: Handled) {
    h.fate != Raised
    && (h.fate == Created || h.fate == Known ==> h.record.file.Some? && Exists(files, h.record.file.value))
  }

  lemma KeptLater(files: seq<FileRow>, files': seq<FileRow>, h: Handled)
    requires Kept(files, h) && files <= files'
    ensures Kept(files', h)
  {
    assert forall row | row in files :: row in files';
  }

  lemma {:induction false} EntriesMeaning(db: Db, records: seq<Record>, env: Env)
    requires RowsInv(db) && Polled(db, records, env).Some?
    ensures Records(Entries(db, records, env)) == records
    ensures forall h | h in Entries(db, records, env) :: Kept(Polled(db, records, env).value.files, h)
    decreases |records|
  {
    if records != [] {
      var i := |records| - 1;
      var before, after := Polled(db, records[..i], env).value, Polled(db, records, env).value;
      var earlier := Entries(db, records[..i], env);
      EntriesMeaning(db, records[..i], env);
      PolledKeepsRows(db, records[..i], env);
      var fate := RecordFate(before.files, records[i], env.answer(i), env.sight(i));
      var last := Handled(records[i], fate);
      assert Entries(db, records, env) == earlier + [last];
      assert Records(earlier + [last]) == Records(earlier) + [records[i]] by {
        assert (earlier + [last])[..|earlier|] == earlier;
      }
      assert before.files <= after.files && Kept(after.files, last) by {
        LastIsKept(before, records[i], env.answer(i), env.sight(i));
      }
      forall h | h in earlier ensures Kept(after.files, h) {
        KeptLater(before.files, after.files, h);
      }
    }
  }

  lemma LastIsKept(before: Db, r: Record, answer: Answer, sight: Sight)
    requires RowsInv(before) && RecordFate(before.files, r, answer, sight) != Raised
    ensures var fate := RecordFate(before.files, r, answer, sight);
            var after := if fate == Created then Captured(before, Pair(r.series, r.file.value), Readable) else before;
            before.files <= after.files && Kept(after.files, Handled(r, fate))
  {
    if r.file.Some? {
      CapturedKeepsRows(before, Pair(r.series, r.file.value), Readable);
      CapturedExists(before, Pair(r.series, r.file.value), Readable, r.file.value);
    }
  }

  // ----- the invariant -----

  /** Committed polls have handled exactly the records up to the watermark, in order and once each. */
  ghost predicate DiscoveryInv(w: World) {
    && RowsInv(w.db) && Ids(w.history)
    && Records(w.log) <= w.history
    && w.db.watermark == (if w.log == [] then 0 else Records(w.log)[|Records(w.log)| - 1].id)
    && (forall h | h in w.log :: Kept(w.db.files, h))
  }

  lemma {:induction false} RecordsLength(log: seq<Handled>)
    ensures |Records(log)| == |log|
    ensures forall i | 0 <= i < |log| :: Records(log)[i] == log[i].record
    decreases |log|
  {
    if log != [] {
      RecordsLength(log[..|log| - 1]);
    }
  }

  lemma KeptByBatch(w: World, files: seq<FileRow>)
    requires DiscoveryInv(w) && w.db.files <= files
    ensures forall h | h in w.log :: Kept(files, h)
  {
    forall h | h in w.log ensures Kept(files, h) {
      KeptLater(w.db.files, files, h);
    }
  }

  /** What a poll sees above the watermark is what comes next in the history. */
  lemma PollSeesNext(w: World, seen: nat)
    requires DiscoveryInv(w) && seen <= |w.history|
    ensures var k, records := |Records(w.log)|, Since(w.history[..seen], w.db.watermark);
            records == if seen <= k then [] else w.history[k..seen]
  {
    var k := |Records(w.log)|;
    RecordsLength(w.log);
    if seen < k {
      assert forall i | 0 <= i < seen :: w.history[i].id < w.history[k - 1].id;
      SinceNone(w.history[..seen], w.db.watermark);
    } else {
      SinceIsRest(w.history[..seen], k, w.db.watermark);
      assert w.history[..seen][k..] == w.history[k..seen];
    }
  }

  /** A poll that handles the next records advances the log and the watermark together. */
  lemma PollKeepsInv(w: World, records: seq<Record>, env: Env)
    requires DiscoveryInv(w) && PollOutcome(w.db, records, env).Some? && Records(w.log) + records <= w.history
    ensures DiscoveryInv(Polling(w, records, env))
    ensures w.db.files <= Polling(w, records, env).db.files && w.db.watermark <= Polling(w, records, env).db.watermark
  {
    var db, entries := PollOutcome(w.db, records, env).value, Entries(w.db, records, env);
    PolledKeepsRows(w.db, records, env);
    EntriesMeaning(w.db, records, env);
    RecordsConcat(w.log, entries);
    assert forall h | h in w.log + entries :: Kept(db.files, h) by {
      KeptByBatch(w, db.files);
    }
    if records == [] {
      RecordsLength(entries);
      assert w.log + entries == w.log;
    } else {
      LastOfLog(w, records);
    }
  }

  lemma LastOfLog(w: World, records: seq<Record>)
    requires DiscoveryInv(w) && Records(w.log) + records <= w.history && records != []
    ensures w.db.watermark <= records[|records| - 1].id
    ensures (Records(w.log) + records)[|Records(w.log) + records| - 1] == records[|records| - 1]
  {
    var k := |Records(w.log)|;
    RecordsLength(w.log);
    assert w.history[k + |records| - 1] == records[|records| - 1];
    assert k > 0 ==> w.history[k - 1] == Records(w.log)[k - 1];
  }

  function Polling(w: World, records: seq<Record>, env: Env): World
    requires PollOutcome(w.db, records, env).Some?
  {
    w.(db := PollOutcome(w.db, records, env).value, log := w.log + Entries(w.db, records, env))
  }

  lemma PollIsNext(w: World, seen: nat)
    requires DiscoveryInv(w) && seen <= |w.history|
    ensures Records(w.log) + Since(w.history[..seen], w.db.watermark) <= w.history
  {
    PollSeesNext(w, seen);
    PrefixThenNext(Records(w.log), w.history, seen);
  }

  lemma PrefixThenNext(a: seq<Record>, history: seq<Record>, seen: nat)
    requires a <= history && seen <= |history|
    ensures a + (if seen <= |a| then [] else history[|a|..seen]) <= history
  {
    assert a == history[..|a|];
  }

  lemma BackfillKeepsInv(w: World, library: Library, start: Start, size: int, env: Env)
    requires DiscoveryInv(w) && FillOutcome(w.db, library, start, size, env).Some?
    ensures DiscoveryInv(w.(db := FillOutcome(w.db, library, start, size, env).value))
  {
    FilledKeepsRows(w.db, Taken(Todo(library, start), size), env);
    KeptByBatch(w, FillOutcome(w.db, library, start, size, env).value.files);
  }

  lemma PollMove(w: World, seen: nat, env: Env, lost: bool)
    requires DiscoveryInv(w)
    ensures var w' := Next(w, Poll(seen, env, lost));
            DiscoveryInv(w') && w.db.watermark <= w'.db.watermark && w.db.files <= w'.db.files && w.log <= w'.log && w.history == w'.history
  {
    var upTo := if seen <= |w.history| then seen else |w.history|;
    assert w.history[..|w.history|] == w.history;
    var records := Since(w.history[..upTo], w.db.watermark);
    PollIsNext(w, upTo);
    if !lost && PollOutcome(w.db, records, env).Some? {
      PollKeepsInv(w, records, env);
      assert Next(w, Poll(seen, env, lost)) == Polling(w, records, env);
    }
  }

  lemma MoveKeepsInv(w: World, m: Move)
    requires DiscoveryInv(w)
    ensures DiscoveryInv(Next(w, m))
  {
    match m
    case Import(r) =>
    case Poll(seen, env, lost) =>
      PollMove(w, seen, env, lost);
    case Backfill(library, size, reset, series, env, lost) =>
      if !lost && FillOutcome(w.db, library, StartOf(w.db.cursor, reset, series), size, env).Some? {
        BackfillKeepsInv(w, library, StartOf(w.db.cursor, reset, series), size, env);
      }
  }

  lemma {:induction false} RunKeepsInv(moves: seq<Move>)
    ensures DiscoveryInv(After(START, moves))
    decreases |moves|
  {
    if moves != [] {
      RunKeepsInv(moves[..|moves| - 1]);
      MoveKeepsInv(After(START, moves[..|moves| - 1]), moves[|moves| - 1]);
    }
  }

  /** Discovery is exactly-once: whatever batches run and whichever of them are lost, an episode file has
      at most one row, each row has exactly one job, and the records up to the watermark are exactly those
      a committed poll handled, each once. */
  lemma ExactlyOnce(moves: seq<Move>)
    ensures var w := After(START, moves);
            && (forall i, j | 0 <= i < |w.db.files| && 0 <= j < |w.db.files| && w.db.files[i].file == w.db.files[j].file :: i == j)
            && (forall i | 0 <= i < |w.db.files| :: multiset(w.db.jobs)[JobRow(i)] == 1)
            && |w.db.jobs| == |w.db.files|
            && (forall r | r in w.history :: r.id <= w.db.watermark <==> r in Records(w.log))
            && (forall r | r in Records(w.log) :: multiset(Records(w.log))[r] == 1)
  {
    var w := After(START, moves);
    RunKeepsInv(moves);
    forall i | 0 <= i < |w.db.files| ensures multiset(w.db.jobs)[JobRow(i)] == 1 {
      OnceIn(w.db.jobs, i);
    }
    LogIsUpToWatermark(w);
    RecordsOnce(w);
  }

  lemma RecordsOnce(w: World)
    requires DiscoveryInv(w)
    ensures forall r | r in Records(w.log) :: multiset(Records(w.log))[r] == 1
  {
    var records := Records(w.log);
    forall r | r in records ensures multiset(records)[r] == 1 {
      var i :| 0 <= i < |records| && records[i] == r;
      assert forall j | 0 <= j < |records| :: records[j] == w.history[j];
      OnceIn(records, i);
    }
  }

  lemma OnceIn<T>(s: seq<T>, i: nat)
    requires i < |s| && forall j | 0 <= j < |s| && j != i :: s[j] != s[i]
    ensures multiset(s)[s[i]] == 1
  {
    assert s == s[..i] + [s[i]] + s[i + 1..];
    assert s[i] !in s[..i] && s[i] !in s[i + 1..];
  }

  lemma LogIsUpToWatermark(w: World)
    requires DiscoveryInv(w)
    ensures forall r | r in w.history :: r.id <= w.db.watermark <==> r in Records(w.log)
  {
    RecordsLength(w.log);
    var k := |w.log|;
    forall r | r in w.history ensures r.id <= w.db.watermark <==> r in Records(w.log) {
      var i :| 0 <= i < |w.history| && w.history[i] == r;
      if i < k {
        assert Records(w.log)[i] == r;
        assert i == k - 1 || w.history[i].id < w.history[k - 1].id;
      } else {
        assert k > 0 ==> w.history[k - 1].id < r.id;
        forall j | 0 <= j < k ensures Records(w.log)[j] != r {
          assert w.history[j].id < r.id;
        }
      }
    }
  }

  /** Nothing is taken back: over a move the watermark does not fall and rows, jobs and the log only grow. */
  lemma MoveOnlyAdds(w: World, m: Move)
    requires DiscoveryInv(w)
    ensures var w' := Next(w, m);
            w.db.watermark <= w'.db.watermark && w.db.files <= w'.db.files && w.log <= w'.log && w.history <= w'.history
  {
    match m
    case Import(r) =>
    case Poll(seen, env, lost) =>
      PollMove(w, seen, env, lost);
    case Backfill(library, size, reset, series, env, lost) =>
      var start := StartOf(w.db.cursor, reset, series);
      if !lost && FillOutcome(w.db, library, start, size, env).Some? {
        FilledKeepsRows(w.db, Taken(Todo(library, start), size), env);
      }
  }

  /** A record handled by a poll is never offered to a later one, so a file skipped once stays out of the
      queue unless another record or the backfill brings it up. */
  lemma HandledIsNeverSeenAgain(moves: seq<Move>, seen: nat, r: Record)
    requires var w := After(START, moves); seen <= |w.history| && r in Records(w.log)
    ensures var w := After(START, moves); r !in Since(w.history[..seen], w.db.watermark)
  {
    RunKeepsInv(moves);
    HandledIsBehind(After(START, moves), seen, r);
  }

  lemma HandledIsBehind(w: World, seen: nat, r: Record)
    requires DiscoveryInv(w) && seen <= |w.history| && r in Records(w.log)
    ensures r !in Since(w.history[..seen], w.db.watermark)
  {
    PollSeesNext(w, seen);
    if seen > |Records(w.log)| {
      OldIsNotNext(Records(w.log), w.history, seen, r);
    }
  }

  lemma OldIsNotNext(a: seq<Record>, history: seq<Record>, seen: nat, r: Record)
    requires Ids(history) && a <= history && |a| <= seen <= |history| && r in a
    ensures r !in history[|a|..seen]
  {
    var i :| 0 <= i < |a| && a[i] == r;
    forall j | |a| <= j < seen ensures history[j] != r {
      assert history[i].id < history[j].id;
    }
  }
}
