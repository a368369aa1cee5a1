/** `discovery.py`: the two ways files enter the queue, each one transaction per batch. */
module Discovery {
  import opened Options
  import opened BackfillWalk

  /** A `files` row; its row id is its position. */
  datatype FileRow = FileRow(series: nat, file: nat)

  /** A discovery job refers to a file row. */
  datatype JobRow = JobRow(fileRow: nat)

  datatype Db = Db(watermark: nat, cursor: Option<Pair>, files: seq<FileRow>, jobs: seq<JobRow>)

  /** A history record; some carry no episode file id. */
  datatype Record = Record(id: nat, file: Option<nat>, series: nat)

  /** What the file system and the client answer when a file is looked at. */
  datatype Sight = Unmapped | Unwatched | Missing | Inaccessible | Unreadable | Readable | Breaks

  /** What Sonarr answers when a history record's file is asked for. */
  datatype Answer = Found | NotFound | Refused

  /** How one file came out; a raised exception ends the batch. */
  datatype Fate = Created | Known | Skipped | Failed | Raised

  predicate Exists(files: seq<FileRow>, file: nat) {
    exists row | row in files :: row.file == file
  }

  function Look(files: seq<FileRow>, file: nat, sight: Sight): Fate {
    if Exists(files, file) then Known
    else
      match sight
      case Unmapped => Skipped
      case Unwatched => Skipped
      case Missing => Skipped
      case Inaccessible => Failed
      case Unreadable => Failed
      case Readable => Created
      case Breaks => Raised
  }

  /** `_capture_file`: a new row and its job, or nothing. */
  function Captured(db: Db, pair: Pair, sight: Sight): Db {
    if Look(db.files, pair.file, sight) == Created
    then db.(files := db.files + [FileRow(pair.series, pair.file)], jobs := db.jobs + [JobRow(|db.files|)])
    else db
  }

  // ----- one poll -----

  /** The answers met by the i-th record or file of a batch. */
  datatype Env = Env(answer: nat -> Answer, sight: nat -> Sight, listingFails: nat -> bool)

  function RecordFate(files: seq<FileRow>, r: Record, answer: Answer, sight: Sight): Fate {
    if r.file.None? then Skipped
    else if Exists(files, r.file.value) then Known
    else
      match answer
      case NotFound => Skipped
      case Refused => Raised
      case Found => Look(files, r.file.value, sight)
  }

  /** The rows after the records, if none of them raised. */
  function Polled(db: Db, records: seq<Record>, env: Env): Option<Db> {
    if records == [] then Some(db)
    else
      var i := |records| - 1;
      var before := Polled(db, records[..i], env);
      if before.None? then None
      else
        match RecordFate(before.value.files, records[i], env.answer(i), env.sight(i))
        case Raised => None
        case Created => Some(Captured(before.value, Pair(records[i].series, records[i].file.value), Readable))
        case _ => before
  }

  /** How many of the records' files could not be read. */
  function RecordFailures(db: Db, records: seq<Record>, env: Env): nat {
    if records == [] then 0
    else
      var i := |records| - 1;
      var before := Polled(db, records[..i], env);
      RecordFailures(db, records[..i], env)
      + if before.Some? && RecordFate(before.value.files, records[i], env.answer(i), env.sight(i)) == Failed then 1 else 0
  }

  /** A committed poll: its rows, and the last record's id as the watermark. */
  function PollOutcome(db: Db, records: seq<Record>, env: Env): Option<Db> {
    match Polled(db, records, env)
    case None => None
    case Some(d) => Some(if records == [] then d else d.(watermark := records[|records| - 1].id))
  }

  // ----- one backfill step -----

  /** The rows after the files, if none of them raised. */
  function Filled(db: Db, pairs: seq<Pair>, env: Env): Option<Db> {
    if pairs == [] then Some(db)
    else
      var i := |pairs| - 1;
      var before := Filled(db, pairs[..i], env);
      if before.None? || Look(before.value.files, pairs[i].file, env.sight(i)) == Raised then None
      else Some(Captured(before.value, pairs[i], env.sight(i)))
  }

  /** How many of the files could not be read. */
  function Failures(db: Db, pairs: seq<Pair>, env: Env): nat {
    if pairs == [] then 0
    else
      var i := |pairs| - 1;
      var before := Filled(db, pairs[..i], env);
      Failures(db, pairs[..i], env)
      + if before.Some? && Look(before.value.files, pairs[i].file, env.sight(i)) == Failed then 1 else 0
  }

  /** A named series wins over a reset, a reset over the stored cursor. */
  function StartOf(cursor: Option<Pair>, reset: bool, series: Option<nat>): Start {
    match series
    case Some(s) => AtSeries(s)
    case None => if reset then Beginning else FromCursor(cursor)
  }

  function FillOutcome(db: Db, library: Library, start: Start, n: int, env: Env): Option<Db> {
    var todo := Todo(library, start);
    match Filled(db, Taken(todo, n), env)
    case None => None
    case Some(d) => Some(d.(cursor := NextCursor(library, todo, n)))
  }

  lemma {:induction false} PolledPrefix(db: Db, records: seq<Record>, env: Env, k: nat)
    requires k <= |records| && Polled(db, records[..k], env).None?
    ensures Polled(db, records, env).None?
    decreases |records|
  {
    if k < |records| {
      assert records[..|records| - 1][..k] == records[..k];
      PolledPrefix(db, records[..|records| - 1], env, k);
    } else {
      assert records[..k] == records;
    }
  }

  lemma {:induction false} FilledPrefix(db: Db, pairs: seq<Pair>, env: Env, k: nat)
    requires k <= |pairs| && Filled(db, pairs[..k], env).None?
    ensures Filled(db, pairs, env).None?
    decreases |pairs|
  {
    if k < |pairs| {
      assert pairs[..|pairs| - 1][..k] == pairs[..k];
      FilledPrefix(db, pairs[..|pairs| - 1], env, k);
    } else {
      assert pairs[..k] == pairs;
    }
  }

  /** `[f for f in files if f.id > start_after_file_id]`, on the cursor's own series. */
  function KeepFiles(start: Start, series: nat, files: seq<nat>): seq<nat> {
    if files == [] then []
    else (if Ahead(start, Pair(series, files[0])) then [files[0]] else []) + KeepFiles(start, series, files[1..])
  }

  /** What is left of the walk in one series. */
  lemma {:induction false} FilterSeries(start: Start, series: nat, files: seq<nat>)
    ensures Filter(start, PairsOf(series, files)) == PairsOf(series, KeepFiles(start, series, files))
  {
    if files != [] {
      FilterSeries(start, series, files[1..]);
      assert PairsOf(series, files)[1..] == PairsOf(series, files[1..]);
      var kept := KeepFiles(start, series, files);
      if Ahead(start, Pair(series, files[0])) {
        assert kept[1..] == KeepFiles(start, series, files[1..]);
      } else {
        assert kept == KeepFiles(start, series, files[1..]);
      }
    }
  }
}
