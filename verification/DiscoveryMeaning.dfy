/**
 What a batch of discovery does, told record by record and file by file from what it meets: which ones end it,
 which fail, and which get a row.
 */
module DiscoveryMeaning {
  import opened Options
  import opened BackfillWalk
  import opened Discovery
  import opened DiscoverySafety

  // ----- a poll -----

  /** The file has a row when record i is reached: from before, or by an earlier record of the batch. */
  predicate HasRowBy(db: Db, records: seq<Record>, env: Env, i: nat, file: nat)
    requires i <= |records|
  {
    (exists row | row in db.files :: row.file == file)
    || exists j | 0 <= j < i :: records[j].file == Some(file) && env.answer(j) == Found && env.sight(j) == Readable
  }

  /** Record i names a file without a row, so Sonarr is asked for it. */
  predicate AsksAt(db: Db, records: seq<Record>, env: Env, i: nat)
    requires i < |records|
  {
    records[i].file.Some? && !HasRowBy(db, records, env, i, records[i].file.value)
  }

  /** Sonarr answers with an error that is not a 404, or looking at the file raises. */
  predicate RaisesAt(db: Db, records: seq<Record>, env: Env, i: nat)
    requires i < |records|
  {
    AsksAt(db, records, env, i) && (env.answer(i) == Refused || (env.answer(i) == Found && env.sight(i) == Breaks))
  }

  predicate FailsAt(db: Db, records: seq<Record>, env: Env, i: nat)
    requires i < |records|
  {
    AsksAt(db, records, env, i) && env.answer(i) == Found && (env.sight(i) == Inaccessible || env.sight(i) == Unreadable)
  }

  predicate CreatesAt(db: Db, records: seq<Record>, env: Env, i: nat)
    requires i < |records|
  {
    AsksAt(db, records, env, i) && env.answer(i) == Found && env.sight(i) == Readable
  }

  function FailedBefore(db: Db, records: seq<Record>, env: Env, k: nat): nat
    requires k <= |records|
  {
    if k == 0 then 0 else FailedBefore(db, records, env, k - 1) + if FailsAt(db, records, env, k - 1) then 1 else 0
  }

  function RowsBefore(db: Db, records: seq<Record>, env: Env, k: nat): seq<FileRow>
    requires k <= |records|
  {
    if k == 0 then []
    else RowsBefore(db, records, env, k - 1) + RowAt(db, records, env, k - 1)
  }

  function RowAt(db: Db, records: seq<Record>, env: Env, i: nat): seq<FileRow>
    requires i < |records|
  {
    if CreatesAt(db, records, env, i) then [FileRow(records[i].series, records[i].file.value)] else []
  }

  lemma KnownIff(db: Db, records: seq<Record>, env: Env, k: nat, file: nat)
    requires k <= |records| && Polled(db, records[..k], env).Some?
    ensures Exists(Polled(db, records[..k], env).value.files, file) <==> HasRowBy(db, records, env, k, file)
  {
    PolledMeaning(db, records[..k], env, file);
    assert (exists j :: 0 <= j < k && Gets(records[..k][j], file, env.answer(j), env.sight(j))) <==>
           exists j | 0 <= j < k :: records[j].file == Some(file) && env.answer(j) == Found && env.sight(j) == Readable by {
      assert forall j | 0 <= j < k :: records[..k][j] == records[j];
    }
  }

  ghost predicate NoneRaises(db: Db, records: seq<Record>, env: Env, k: nat)
    requires k <= |records|
  {
    forall i | 0 <= i < k :: !RaisesAt(db, records, env, i)
  }

  lemma FateOf(db: Db, records: seq<Record>, env: Env, k: nat)
    requires k < |records| && Polled(db, records[..k], env).Some?
    ensures var fate := RecordFate(Polled(db, records[..k], env).value.files, records[k], env.answer(k), env.sight(k));
            && (fate == Raised <==> RaisesAt(db, records, env, k))
            && (fate == Failed <==> FailsAt(db, records, env, k))
            && (fate == Created <==> CreatesAt(db, records, env, k))
  {
    if records[k].file.Some? {
      KnownIff(db, records, env, k, records[k].file.value);
    }
  }

  lemma PolledStep(db: Db, records: seq<Record>, env: Env, k: nat)
    requires k < |records| && Polled(db, records[..k], env).Some?
    ensures var before, after := Polled(db, records[..k], env).value, Polled(db, records[..k + 1], env);
            && (after.None? <==> RaisesAt(db, records, env, k))
            && (after.Some? ==> after.value.files == before.files + RowAt(db, records, env, k))
    ensures RecordFailures(db, records[..k + 1], env) ==
            RecordFailures(db, records[..k], env) + if FailsAt(db, records, env, k) then 1 else 0
  {
    assert records[..k + 1][..k] == records[..k];
    FateOf(db, records, env, k);
  }

  lemma {:induction false} PolledUpTo(db: Db, records: seq<Record>, env: Env, k: nat)
    requires k <= |records|
    ensures Polled(db, records[..k], env).Some? <==> NoneRaises(db, records, env, k)
    decreases k
  {
    if k > 0 {
      PolledUpTo(db, records, env, k - 1);
      if Polled(db, records[..k - 1], env).Some? {
        PolledStep(db, records, env, k - 1);
      } else {
        assert records[..k][..k - 1] == records[..k - 1];
        PolledPrefix(db, records[..k], env, k - 1);
      }
    }
  }

  lemma {:induction false} PolledRows(db: Db, records: seq<Record>, env: Env, k: nat)
    requires k <= |records| && NoneRaises(db, records, env, k)
    ensures Polled(db, records[..k], env).Some?
    ensures Polled(db, records[..k], env).value.files == db.files + RowsBefore(db, records, env, k)
    ensures RecordFailures(db, records[..k], env) == FailedBefore(db, records, env, k)
    decreases k
  {
    PolledUpTo(db, records, env, k);
    if k > 0 {
      PolledRows(db, records, env, k - 1);
      PolledStep(db, records, env, k - 1);
    }
  }

  /** A poll ends without a commit exactly if some record names a file that has no row by then, and Sonarr refuses
      it or the file breaks: no record is passed over because of an error.  A committed poll adds a row for each
      file it could read, with the record's series, and counts the files it could not read. */
  lemma PollRaisesIff(db: Db, records: seq<Record>, env: Env)
    ensures PollOutcome(db, records, env).None? <==> exists i :: 0 <= i < |records| && RaisesAt(db, records, env, i)
    ensures PollOutcome(db, records, env).Some? ==>
              && PollOutcome(db, records, env).value.files == db.files + RowsBefore(db, records, env, |records|)
              && RecordFailures(db, records, env) == FailedBefore(db, records, env, |records|)
              && PollOutcome(db, records, env).value.watermark == if records == [] then db.watermark else records[|records| - 1].id
  {
    assert records[..|records|] == records;
    PolledUpTo(db, records, env, |records|);
    if Polled(db, records, env).Some? {
      PolledRows(db, records, env, |records|);
    }
    PolledKeepsTheRest(db, records, env);
  }

  lemma {:induction false} PolledKeepsTheRest(db: Db, records: seq<Record>, env: Env)
    ensures Polled(db, records, env).Some? ==>
              Polled(db, records, env).value.watermark == db.watermark && Polled(db, records, env).value.cursor == db.cursor
    decreases |records|
  {
    if records != [] {
      PolledKeepsTheRest(db, records[..|records| - 1], env);
    }
  }

  // ----- a backfill step -----

  predicate HasFileBy(db: Db, pairs: seq<Pair>, env: Env, i: nat, file: nat)
    requires i <= |pairs|
  {
    (exists row | row in db.files :: row.file == file)
    || exists j | 0 <= j < i :: pairs[j].file == file && env.sight(j) == Readable
  }

  predicate BreaksAt(db: Db, pairs: seq<Pair>, env: Env, i: nat)
    requires i < |pairs|
  {
    !HasFileBy(db, pairs, env, i, pairs[i].file) && env.sight(i) == Breaks
  }

  predicate UnreadAt(db: Db, pairs: seq<Pair>, env: Env, i: nat)
    requires i < |pairs|
  {
    !HasFileBy(db, pairs, env, i, pairs[i].file) && (env.sight(i) == Inaccessible || env.sight(i) == Unreadable)
  }

  predicate ReadAt(db: Db, pairs: seq<Pair>, env: Env, i: nat)
    requires i < |pairs|
  {
    !HasFileBy(db, pairs, env, i, pairs[i].file) && env.sight(i) == Readable
  }

  function UnreadBefore(db: Db, pairs: seq<Pair>, env: Env, k: nat): nat
    requires k <= |pairs|
  {
    if k == 0 then 0 else UnreadBefore(db, pairs, env, k - 1) + if UnreadAt(db, pairs, env, k - 1) then 1 else 0
  }

  function FilesBefore(db: Db, pairs: seq<Pair>, env: Env, k: nat): seq<FileRow>
    requires k <= |pairs|
  {
    if k == 0 then []
    else FilesBefore(db, pairs, env, k - 1) + FileAt(db, pairs, env, k - 1)
  }

  function FileAt(db: Db, pairs: seq<Pair>, env: Env, i: nat): seq<FileRow>
    requires i < |pairs|
  {
    if ReadAt(db, pairs, env, i) then [FileRow(pairs[i].series, pairs[i].file)] else []
  }

  lemma FileKnownIff(db: Db, pairs: seq<Pair>, env: Env, k: nat, file: nat)
    requires k <= |pairs| && Filled(db, pairs[..k], env).Some?
    ensures Exists(Filled(db, pairs[..k], env).value.files, file) <==> HasFileBy(db, pairs, env, k, file)
  {
    FilledMeaning(db, pairs[..k], env, file);
    assert (exists j :: 0 <= j < k && pairs[..k][j].file == file && env.sight(j) == Readable) <==>
           exists j | 0 <= j < k :: pairs[j].file == file && env.sight(j) == Readable by {
      assert forall j | 0 <= j < k :: pairs[..k][j] == pairs[j];
    }
  }

  ghost predicate NoneBreaks(db: Db, pairs: seq<Pair>, env: Env, k: nat)
    requires k <= |pairs|
  {
    forall i | 0 <= i < k :: !BreaksAt(db, pairs, env, i)
  }

  lemma FilledStep(db: Db, pairs: seq<Pair>, env: Env, k: nat)
    requires k < |pairs| && Filled(db, pairs[..k], env).Some?
    ensures var before, after := Filled(db, pairs[..k], env).value, Filled(db, pairs[..k + 1], env);
            && (after.None? <==> BreaksAt(db, pairs, env, k))
            && (after.Some? ==> after.value.files == before.files + FileAt(db, pairs, env, k))
    ensures Failures(db, pairs[..k + 1], env) ==
            Failures(db, pairs[..k], env) + if UnreadAt(db, pairs, env, k) then 1 else 0
  {
    assert pairs[..k + 1][..k] == pairs[..k];
    FileKnownIff(db, pairs, env, k, pairs[k].file);
  }

  lemma {:induction false} FilledUpTo(db: Db, pairs: seq<Pair>, env: Env, k: nat)
    requires k <= |pairs|
    ensures Filled(db, pairs[..k], env).Some? <==> NoneBreaks(db, pairs, env, k)
    decreases k
  {
    if k > 0 {
      FilledUpTo(db, pairs, env, k - 1);
      assert pairs[..k][..k - 1] == pairs[..k - 1];
      if Filled(db, pairs[..k - 1], env).Some? {
        FilledStep(db, pairs, env, k - 1);
      } else {
        FilledPrefix(db, pairs[..k], env, k - 1);
      }
    }
  }

  lemma {:induction false} FilledRows(db: Db, pairs: seq<Pair>, env: Env, k: nat)
    requires k <= |pairs| && NoneBreaks(db, pairs, env, k)
    ensures Filled(db, pairs[..k], env).Some?
    ensures Filled(db, pairs[..k], env).value.files == db.files + FilesBefore(db, pairs, env, k)
    ensures Failures(db, pairs[..k], env) == UnreadBefore(db, pairs, env, k)
    decreases k
  {
    FilledUpTo(db, pairs, env, k);
    if k > 0 {
      FilledRows(db, pairs, env, k - 1);
      FilledStep(db, pairs, env, k - 1);
    }
  }

  /** A backfill step, likewise: it ends without a commit exactly if some file of the batch without a row breaks. */
  lemma FillRaisesIff(db: Db, pairs: seq<Pair>, env: Env)
    ensures Filled(db, pairs, env).None? <==> exists i :: 0 <= i < |pairs| && BreaksAt(db, pairs, env, i)
    ensures Filled(db, pairs, env).Some? ==>
              && Filled(db, pairs, env).value.files == db.files + FilesBefore(db, pairs, env, |pairs|)
              && Failures(db, pairs, env) == UnreadBefore(db, pairs, env, |pairs|)
  {
    assert pairs[..|pairs|] == pairs;
    FilledUpTo(db, pairs, env, |pairs|);
    if Filled(db, pairs, env).Some? {
      FilledRows(db, pairs, env, |pairs|);
    }
  }

  // ----- where a step starts -----

  /** The files a step may handle: from a named series on, whatever is stored or reset; else after a reset all
      of them; else those after the stored cursor, or all if there is none. */
  lemma StepReaches(library: Library, cursor: Option<Pair>, reset: bool, series: Option<nat>, p: Pair)
    ensures p in Todo(library, StartOf(cursor, reset, series)) <==>
            && p.series in library && p.file in library[p.series]
            && (series.Some? ==> p.series >= series.value)
            && (series.None? && !reset && cursor.Some? ==>
                  p.series > cursor.value.series || (p.series == cursor.value.series && p.file > cursor.value.file))
  {
    FlatWalkMeaning(library);
    FilterHas(StartOf(cursor, reset, series), FlatWalk(library));
  }
}
