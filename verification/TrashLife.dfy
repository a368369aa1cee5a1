/**
 The life of trash items over whole runs.  A sweep, a delete and a restore each load their rows, then work
 on the disk, and commit last, without a condition on the stored rows.  Any number of them interleave, and
 any may die on the way.
 */
module TrashLife {
  import opened Options
  import opened Trash

  /** An operation in flight: the outcome it will write, the time of a sweep's SELECT, the rows it has
      loaded, and how far it is with the disk. */
  datatype Task = Task(outcome: Outcome, now: int, items: seq<nat>, step: nat)

  datatype Move =
    | Put(original: string, path: string, expiresAt: int, content: nat)   // `replace`: a copy and its row
    | Happen(path: string, left: Option<nat>)                            // anything outside the trash
    | Select(task: nat, now: int)                                        // a sweep loads the due rows
    | Open(task: nat, id: nat, outcome: Outcome)                         // the guard of a delete or restore
    | Remove(task: nat, works: bool)                                     // a sweep or delete unlinks the next copy
    | Look(task: nat)                                                    // a restore tests for a free path
    | GiveBack(task: nat, put: PutBack)                                  // and links or copies the file back
    | Commit(task: nat, now: int)
    | Die(task: nat)                                                     // the task ends without a commit

  /** `copies`: what each item's copy held.  `gone`: items whose copy has been unlinked. */
  datatype World = World(state: State, tasks: map<nat, Task>, copies: seq<nat>, gone: set<nat>)

  function DueIds(rows: seq<Row>, now: int): seq<nat> {
    if rows == [] then []
    else
      var i := |rows| - 1;
      DueIds(rows[..i], now) + if Due(rows[i], now) then [i] else []
  }

  ghost predicate InTrash(rows: seq<Row>, path: string) {
    exists row | row in rows :: row.trashPath == path
  }

  /** The trash and the library are different directories, and the copy's own path is free. */
  ghost predicate NewPaths(s: State, original: string, path: string) {
    && path !in s.disk && original != path && !InTrash(s.rows, original)
    && forall row | row in s.rows :: row.originalPath != path
  }

  ghost function Naming(rows: seq<Row>, path: string): set<nat> {
    set i | 0 <= i < |rows| && rows[i].trashPath == path
  }

  function Steps(t: Task): nat {
    if t.outcome == Restored then 2 else |t.items|
  }

  predicate Known(rows: seq<Row>, t: Task) {
    forall i | i in t.items :: i < |rows|
  }

  /** The task is at this step with its disk work. */
  predicate At(w: World, task: nat, restoring: bool, step: nat) {
    && task in w.tasks && Known(w.state.rows, w.tasks[task])
    && (w.tasks[task].outcome == Restored) == restoring && w.tasks[task].step == step
    && step < Steps(w.tasks[task]) && (restoring ==> |w.tasks[task].items| == 1)
  }

  /** The worker pool has one sweep loop. */
  ghost predicate Enabled(w: World, m: Move) {
    match m
    case Put(original, path, _, _) => NewPaths(w.state, original, path)
    case Happen(path, _) => !InTrash(w.state.rows, path)
    case Select(task, _) => task !in w.tasks && forall t | t in w.tasks :: w.tasks[t].outcome != Expired
    case Open(task, id, outcome) => task !in w.tasks && outcome != Expired && Guard(w.state.rows, id) == Done
    case Remove(task, _) => task in w.tasks && At(w, task, false, w.tasks[task].step)
    case Look(task) => At(w, task, true, 0)
    case GiveBack(task, _) => At(w, task, true, 1)
    case Commit(task, _) =>
      task in w.tasks && Known(w.state.rows, w.tasks[task]) && w.tasks[task].step == Steps(w.tasks[task])
    case Die(task) => task in w.tasks
  }

  function Advanced(w: World, task: nat): World
    requires task in w.tasks
  {
    w.(tasks := w.tasks[task := w.tasks[task].(step := w.tasks[task].step + 1)])
  }

  function Ended(w: World, task: nat): World {
    w.(tasks := w.tasks - {task})
  }

  function Item(rows: seq<Row>, t: Task, k: nat): (i: nat)
    requires Known(rows, t) && k < |t.items|
    ensures i < |rows| && i in t.items
  {
    assert t.items[k] in t.items;
    t.items[k]
  }

  /** The path that the next unlink of a task is for. */
  function Aim(w: World, task: nat): string
    requires task in w.tasks && At(w, task, false, w.tasks[task].step)
  {
    w.state.rows[Item(w.state.rows, w.tasks[task], w.tasks[task].step)].trashPath
  }

  /** The row a restore has loaded. */
  function Loaded(w: World, task: nat): Row
    requires At(w, task, true, 0) || At(w, task, true, 1)
  {
    w.state.rows[Item(w.state.rows, w.tasks[task], 0)]
  }

  /** Does putting back write to the original path?  A link never does over a file, a copy does. */
  predicate Writes(disk: Disk, row: Row, put: PutBack) {
    row.trashPath in disk && !put.Refused? && (put.Linked? ==> row.originalPath !in disk)
  }

  function Given(disk: Disk, row: Row, put: PutBack): Disk {
    if !Writes(disk, row, put) then disk
    else disk[row.originalPath := if put.BrokeOff? then put.partial else disk[row.trashPath]]
  }

  function ClosedRows(rows: seq<Row>, items: seq<nat>, now: int, outcome: Outcome): (closed: seq<Row>)
    ensures |closed| == |rows|
    ensures forall i | 0 <= i < |rows| :: closed[i] == if i in items then Closed(rows[i], now, outcome) else rows[i]
  {
    seq(|rows|, i requires 0 <= i < |rows| => if i in items then Closed(rows[i], now, outcome) else rows[i])
  }

  /** A sweep writes the time of its SELECT, the others that of their commit. */
  function Written(t: Task, now: int): int {
    if t.outcome == Expired then t.now else now
  }

  ghost function Next(w: World, m: Move): World
    requires Enabled(w, m)
  {
    var s := w.state;
    match m
    case Put(original, path, expiresAt, content) =>
      w.(state := State(s.rows + [Row(original, path, expiresAt, None, None)], s.disk[path := content]),
         copies := w.copies + [content])
    case Happen(path, left) =>
      w.(state := s.(disk := if left.Some? then s.disk[path := left.value] else s.disk - {path}))
    case Select(task, now) => w.(tasks := w.tasks[task := Task(Expired, now, DueIds(s.rows, now), 0)])
    case Open(task, id, outcome) => w.(tasks := w.tasks[task := Task(outcome, 0, [id], 0)])
    case Remove(task, works) =>
      var path := Aim(w, task);
      Advanced(if works then w.(state := s.(disk := s.disk - {path}), gone := w.gone + Naming(s.rows, path)) else w, task)
    case Look(task) => if Loaded(w, task).originalPath in s.disk then Ended(w, task) else Advanced(w, task)
    case GiveBack(task, put) =>
      var row := Loaded(w, task);
      var w' := w.(state := s.(disk := Given(s.disk, row, put)));
      if Writes(s.disk, row, put) && !put.BrokeOff? then Advanced(w', task) else Ended(w', task)
    case Commit(task, now) =>
      var t := w.tasks[task];
      Ended(w.(state := s.(rows := ClosedRows(s.rows, t.items, Written(t, now), t.outcome))), task)
    case Die(task) => Ended(w, task)
  }

  ghost predicate IsRun(w: World, moves: seq<Move>)
    decreases |moves|
  {
    moves == [] || (Enabled(w, moves[0]) && IsRun(Next(w, moves[0]), moves[1..]))
  }

  ghost function After(w: World, moves: seq<Move>): World
    requires IsRun(w, moves)
    decreases |moves|
  {
    if moves == [] then w else After(Next(w, moves[0]), moves[1..])
  }

  function Start(files: Disk): World {
    World(State([], files), map[], [], {})
  }

  // ----- the invariant -----

  predicate Apart(rows: seq<Row>) {
    forall i, j | 0 <= i < |rows| && 0 <= j < |rows| :: rows[i].trashPath != rows[j].originalPath
  }

  /** Closed with an outcome or neither, and the copy as it was made until it is unlinked. */
  ghost predicate ItemInv(w: World, i: nat)
    requires i < |w.state.rows| == |w.copies|
  {
    var row, disk := w.state.rows[i], w.state.disk;
    && (row.deletedAt.Some? <==> row.outcome.Some?)
    && (i !in w.gone ==> row.trashPath in disk && disk[row.trashPath] == w.copies[i])
  }

  /** A path that was used again holds the copy of its latest item. */
  ghost predicate OneCopy(w: World) {
    forall i, j | 0 <= i < j < |w.state.rows| && w.state.rows[i].trashPath == w.state.rows[j].trashPath :: i in w.gone
  }

  ghost predicate TaskInv(rows: seq<Row>, t: Task) {
    && Known(rows, t) && t.step <= Steps(t)
    && (t.outcome != Expired ==> |t.items| == 1)
    && (t.outcome == Expired ==> forall i | i in t.items :: rows[i].outcome != Some(Expired))
  }

  ghost predicate OneSweep(tasks: map<nat, Task>) {
    forall a, b | a in tasks && b in tasks && tasks[a].outcome == Expired && tasks[b].outcome == Expired :: a == b
  }

  ghost predicate TrashInv(w: World) {
    && |w.state.rows| == |w.copies| && Apart(w.state.rows) && OneCopy(w)
    && (forall i | i in w.gone :: i < |w.state.rows|)
    && (forall i | 0 <= i < |w.state.rows| :: ItemInv(w, i))
    && (forall t | t in w.tasks :: TaskInv(w.state.rows, w.tasks[t])) && OneSweep(w.tasks)
  }

  lemma {:induction false} DueIdsMeaning(rows: seq<Row>, now: int)
    ensures forall i :: i in DueIds(rows, now) <==> 0 <= i < |rows| && Due(rows[i], now)
    decreases |rows|
  {
    if rows != [] {
      DueIdsMeaning(rows[..|rows| - 1], now);
    }
  }

  lemma PutKeepsInv(w: World, m: Move)
    requires TrashInv(w) && Enabled(w, m) && m.Put?
    ensures TrashInv(Next(w, m))
  {
    var rows, w' := w.state.rows, Next(w, m);
    forall i | 0 <= i < |rows|
      ensures rows[i].trashPath != m.original && rows[i].originalPath != m.path
      ensures ItemInv(w, i) && (rows[i].trashPath == m.path ==> i in w.gone)
    {
      assert rows[i] in rows;
    }
    forall i | 0 <= i < |w'.state.rows| ensures ItemInv(w', i) {
    }
    forall t | t in w'.tasks ensures TaskInv(w'.state.rows, w'.tasks[t]) {
      assert TaskInv(rows, w.tasks[t]);
    }
  }

  lemma LoadKeepsInv(w: World, m: Move)
    requires TrashInv(w) && Enabled(w, m) && (m.Select? || m.Open?)
    ensures TrashInv(Next(w, m))
  {
    var w' := Next(w, m);
    if m.Select? {
      DueIdsMeaning(w.state.rows, m.now);
    }
    forall i | 0 <= i < |w.state.rows| ensures ItemInv(w', i) {
      assert ItemInv(w, i);
    }
    forall t | t in w'.tasks ensures TaskInv(w'.state.rows, w'.tasks[t]) {
      if m.Select? && t == m.task {
        assert forall i | i in w'.tasks[t].items :: ItemInv(w, i);
      } else if t in w.tasks && t != m.task {
        assert TaskInv(w.state.rows, w.tasks[t]);
      }
    }
  }

  /** What a step of a task does to the other tasks. */
  lemma TasksKeepInv(w: World, w': World, task: nat)
    requires TrashInv(w) && task in w.tasks && w'.state.rows == w.state.rows
    requires w'.tasks == w.tasks - {task}
             || (w.tasks[task].step < Steps(w.tasks[task]) && w'.tasks == Advanced(w, task).tasks)
    ensures forall t | t in w'.tasks :: TaskInv(w'.state.rows, w'.tasks[t])
    ensures OneSweep(w'.tasks)
  {
    forall t | t in w'.tasks ensures TaskInv(w'.state.rows, w'.tasks[t]) {
      assert TaskInv(w.state.rows, w.tasks[t]);
    }
  }

  /** The trash as it was, up to its tasks and to files elsewhere. */
  lemma OutsideKeepsItems(w: World, w': World)
    requires TrashInv(w) && w'.state.rows == w.state.rows && w'.copies == w.copies && w'.gone == w.gone
    requires forall i | 0 <= i < |w.state.rows| ::
               var p := w.state.rows[i].trashPath;
               (p in w'.state.disk <==> p in w.state.disk) && (p in w.state.disk ==> w'.state.disk[p] == w.state.disk[p])
    ensures OneCopy(w') && forall i | 0 <= i < |w.state.rows| :: ItemInv(w', i)
  {
    forall i | 0 <= i < |w.state.rows| ensures ItemInv(w', i) {
      assert ItemInv(w, i);
    }
  }

  lemma HappenKeepsInv(w: World, m: Move)
    requires TrashInv(w) && Enabled(w, m) && m.Happen?
    ensures TrashInv(Next(w, m))
  {
    forall i | 0 <= i < |w.state.rows| ensures w.state.rows[i].trashPath != m.path {
      assert w.state.rows[i] in w.state.rows;
    }
    OutsideKeepsItems(w, Next(w, m));
  }

  lemma RemoveKeepsInv(w: World, m: Move)
    requires TrashInv(w) && Enabled(w, m) && m.Remove?
    ensures TrashInv(Next(w, m))
  {
    var w' := Next(w, m);
    TasksKeepInv(w, w', m.task);
    forall i | 0 <= i < |w.state.rows| ensures ItemInv(w', i) {
      assert ItemInv(w, i);
    }
  }

  lemma RestoringKeepsInv(w: World, m: Move)
    requires TrashInv(w) && Enabled(w, m) && (m.Look? || m.GiveBack? || m.Die?)
    ensures TrashInv(Next(w, m))
  {
    var w' := Next(w, m);
    TasksKeepInv(w, w', m.task);
    if m.GiveBack? {
      var original := Loaded(w, m.task).originalPath;
      assert forall i | 0 <= i < |w.state.rows| :: w.state.rows[i].trashPath != original;
    }
    OutsideKeepsItems(w, w');
  }

  lemma CommitKeepsInv(w: World, m: Move)
    requires TrashInv(w) && Enabled(w, m) && m.Commit?
    ensures TrashInv(Next(w, m))
  {
    var w', t := Next(w, m), w.tasks[m.task];
    forall i | 0 <= i < |w.state.rows| ensures ItemInv(w', i) {
      assert ItemInv(w, i);
    }
    forall o | o in w'.tasks ensures TaskInv(w'.state.rows, w'.tasks[o]) {
      assert TaskInv(w.state.rows, w.tasks[o]);
    }
  }

  lemma MoveKeepsInv(w: World, m: Move)
    requires TrashInv(w) && Enabled(w, m)
    ensures TrashInv(Next(w, m))
  {
    match m
    case Put(_, _, _, _) => PutKeepsInv(w, m);
    case Happen(_, _) => HappenKeepsInv(w, m);
    case Select(_, _) => LoadKeepsInv(w, m);
    case Open(_, _, _) => LoadKeepsInv(w, m);
    case Remove(_, _) => RemoveKeepsInv(w, m);
    case Look(_) => RestoringKeepsInv(w, m);
    case GiveBack(_, _) => RestoringKeepsInv(w, m);
    case Commit(_, _) => CommitKeepsInv(w, m);
    case Die(_) => RestoringKeepsInv(w, m);
  }

  lemma {:induction false} RunKeepsInv(w: World, moves: seq<Move>)
    requires TrashInv(w) && IsRun(w, moves)
    ensures TrashInv(After(w, moves))
    decreases |moves|
  {
    if moves != [] {
      MoveKeepsInv(w, moves[0]);
      RunKeepsInv(Next(w, moves[0]), moves[1..]);
    }
  }
}
