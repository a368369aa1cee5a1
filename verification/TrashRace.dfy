/** Operations of the trash that nothing disturbs, and a sweep and a restore that meet. */
module TrashRace {
  import opened Options
  import opened Trash
  import opened TrashEffects
  import opened TrashLife

  ghost predicate Leads(w: World, moves: seq<Move>, w': World) {
    IsRun(w, moves) && After(w, moves) == w'
  }

  lemma LeadsFirst(w: World, m: Move, rest: seq<Move>, w': World)
    requires Enabled(w, m) && Leads(Next(w, m), rest, w')
    ensures Leads(w, [m] + rest, w')
  {
    assert ([m] + rest)[1..] == rest;
  }

  lemma LeadsOne(w: World, m: Move)
    requires Enabled(w, m)
    ensures Leads(w, [m], Next(w, m))
  {
    assert Leads(Next(w, m), [], Next(w, m));
    LeadsFirst(w, m, [], Next(w, m));
    assert [m] + [] == [m];
  }

  lemma {:induction false} LeadsConcat(w: World, a: seq<Move>, b: seq<Move>, w1: World, w2: World)
    requires Leads(w, a, w1) && Leads(w1, b, w2)
    ensures Leads(w, a + b, w2)
    decreases |a|
  {
    if a == [] {
      assert a + b == b;
    } else {
      LeadsConcat(Next(w, a[0]), a[1..], b, w1, w2);
      LeadsFirst(w, a[0], a[1..] + b, w2);
      assert a + b == [a[0]] + (a[1..] + b);
    }
  }

  // ----- single moves -----

  lemma RemoveStep(w: World, task: nat, works: bool)
    requires TrashInv(w) && task in w.tasks && w.tasks[task].outcome != Restored && w.tasks[task].step < |w.tasks[task].items|
    ensures Enabled(w, Remove(task, works))
    ensures var t, w' := w.tasks[task], Next(w, Remove(task, works));
            && w'.state == w.state.(disk := Trash.Unlink(w.state.disk, Aim(w, task), works))
            && w'.tasks == w.tasks[task := t.(step := t.step + 1)] && w'.copies == w.copies && TrashInv(w')
  {
    assert TaskInv(w.state.rows, w.tasks[task]);
    MoveKeepsInv(w, Remove(task, works));
  }

  lemma CommitStep(w: World, task: nat, now: int)
    requires TrashInv(w) && task in w.tasks && w.tasks[task].step == Steps(w.tasks[task])
    ensures Enabled(w, Commit(task, now))
    ensures var t, w' := w.tasks[task], Next(w, Commit(task, now));
            && w'.state == w.state.(rows := ClosedRows(w.state.rows, t.items, Written(t, now), t.outcome))
            && w'.tasks == w.tasks - {task} && w'.copies == w.copies
  {
    assert TaskInv(w.state.rows, w.tasks[task]);
  }

  lemma LoadedAndEnded(tasks: map<nat, Task>, task: nat, a: Task, b: Task)
    ensures tasks[task := a][task := b] == tasks[task := b]
    ensures task !in tasks ==> tasks[task := a] - {task} == tasks
  {
  }

  lemma ClosedOne(rows: seq<Row>, id: nat, now: int, outcome: Outcome)
    requires id < |rows|
    ensures ClosedRows(rows, [id], now, outcome) == rows[id := Closed(rows[id], now, outcome)]
  {
  }

  // ----- a sweep -----

  /** The unlinks of a sweep or delete, in order. */
  function Removes(task: nat, items: seq<nat>, works: nat -> bool): seq<Move> {
    if items == [] then [] else [Remove(task, works(items[0]))] + Removes(task, items[1..], works)
  }

  function UnlinkAll(disk: Disk, rows: seq<Row>, items: seq<nat>, works: nat -> bool): Disk
    requires forall i | i in items :: i < |rows|
  {
    if items == [] then disk
    else
      assert items[0] in items && forall i | i in items[1..] :: i in items;
      UnlinkAll(Trash.Unlink(disk, rows[items[0]].trashPath, works(items[0])), rows, items[1..], works)
  }

  lemma {:induction false} UnlinkAllMeaning(disk: Disk, rows: seq<Row>, items: seq<nat>, works: nat -> bool, p: string)
    requires forall i | i in items :: i < |rows|
    ensures p in UnlinkAll(disk, rows, items, works) <==>
            p in disk && forall i | i in items && works(i) :: rows[i].trashPath != p
    ensures p in UnlinkAll(disk, rows, items, works) ==> UnlinkAll(disk, rows, items, works)[p] == disk[p]
    decreases |items|
  {
    if items != [] {
      assert items[0] in items && forall i | i in items[1..] :: i in items;
      UnlinkAllMeaning(Trash.Unlink(disk, rows[items[0]].trashPath, works(items[0])), rows, items[1..], works, p);
      assert forall i :: i in items <==> i == items[0] || i in items[1..];
    }
  }

  lemma DueUnlinked(disk: Disk, rows: seq<Row>, now: int, works: nat -> bool)
    ensures (forall i | i in DueIds(rows, now) :: i < |rows|)
            && UnlinkAll(disk, rows, DueIds(rows, now), works) == SweptDisk(disk, rows, now, works)
  {
    DueIdsMeaning(rows, now);
    var a, b := UnlinkAll(disk, rows, DueIds(rows, now), works), SweptDisk(disk, rows, now, works);
    forall p ensures (p in a <==> p in b) && (p in a ==> a[p] == b[p]) {
      UnlinkAllMeaning(disk, rows, DueIds(rows, now), works, p);
      SweptDiskMeaning(disk, rows, now, works, p);
    }
  }

  /** What a sweep or delete has still to unlink. */
  function Left(t: Task): (left: seq<nat>)
    requires t.step <= |t.items|
    ensures forall i | i in left :: i in t.items
  {
    t.items[t.step..]
  }

  /** The rest of a sweep's or delete's unlinks, one after the other. */
  lemma RemovesRun(w: World, task: nat, works: nat -> bool) returns (w': World)
    requires TrashInv(w) && task in w.tasks && w.tasks[task].outcome != Restored
    requires w.tasks[task].step <= |w.tasks[task].items| && Known(w.state.rows, w.tasks[task])
    ensures Leads(w, Removes(task, Left(w.tasks[task]), works), w') && TrashInv(w')
    ensures w'.state.disk == UnlinkAll(w.state.disk, w.state.rows, Left(w.tasks[task]), works)
    ensures w'.state.rows == w.state.rows && w'.copies == w.copies
    ensures w'.tasks == w.tasks[task := w.tasks[task].(step := |w.tasks[task].items|)]
  {
    var t := w.tasks[task];
    assert NextUp(w.state.rows, t, Left(t));
    w' := SomeRemoves(w, task, works, Left(t));
  }

  /** From its SELECT on, without another move in between. */
  function SweepAlone(rows: seq<Row>, task: nat, now: int, works: nat -> bool, end: int): seq<Move> {
    [Select(task, now)] + (Removes(task, DueIds(rows, now), works) + [Commit(task, end)])
  }

  lemma SelectStep(w: World, task: nat, now: int)
    requires TrashInv(w) && Enabled(w, Select(task, now))
    ensures var w' := Next(w, Select(task, now));
            && w' == w.(tasks := w.tasks[task := Task(Expired, now, DueIds(w.state.rows, now), 0)]) && TrashInv(w')
            && Known(w.state.rows, w'.tasks[task])
  {
    MoveKeepsInv(w, Select(task, now));
    assert TaskInv(w.state.rows, Next(w, Select(task, now)).tasks[task]);
  }

  lemma DueClosed(rows: seq<Row>, now: int)
    ensures ClosedRows(rows, DueIds(rows, now), now, Expired) == SweptRows(rows, now)
  {
    DueIdsMeaning(rows, now);
  }

  /** A sweep that nothing disturbs is the sweep in one step, at the time of its SELECT. */
  lemma UndisturbedSweepIsAtomic(w: World, task: nat, now: int, works: nat -> bool, end: int) returns (after: World)
    requires TrashInv(w) && Enabled(w, Select(task, now))
    ensures Leads(w, SweepAlone(w.state.rows, task, now, works, end), after)
    ensures after.state == Swept(w.state, now, works) && after.tasks == w.tasks && after.copies == w.copies
  {
    var items := DueIds(w.state.rows, now);
    var w1 := Next(w, Select(task, now));
    SelectStep(w, task, now);
    assert items[0..] == items;
    var w2 := RemovesRun(w1, task, works);
    CommitStep(w2, task, end);
    after := Next(w2, Commit(task, end));
    LoadedAndEnded(w.tasks, task, w1.tasks[task], w2.tasks[task]);
    DueUnlinked(w.state.disk, w.state.rows, now, works);
    DueClosed(w.state.rows, now);
    LeadsOne(w2, Commit(task, end));
    LeadsConcat(w1, Removes(task, items, works), [Commit(task, end)], w2, after);
    LeadsFirst(w, Select(task, now), Removes(task, items, works) + [Commit(task, end)], after);
  }

  /** A sweep that dies after any number of its unlinks leaves the rows as they were, and a later full sweep, with
      the same unlinks failing, ends where it would have ended without it. */
  lemma DeadSweepIsHarmless(w: World, task: nat, now: int, works: nat -> bool, k: nat, now': int) returns (dead: World)
    requires TrashInv(w) && Enabled(w, Select(task, now)) && k <= |DueIds(w.state.rows, now)| && now <= now'
    ensures Leads(w, [Select(task, now)] + (Removes(task, DueIds(w.state.rows, now)[..k], works) + [Die(task)]), dead)
    ensures dead.state.rows == w.state.rows && dead.tasks == w.tasks
    ensures (forall i | i in DueIds(w.state.rows, now)[..k] :: i < |w.state.rows|)
            && dead.state.disk == UnlinkAll(w.state.disk, w.state.rows, DueIds(w.state.rows, now)[..k], works)
    ensures Swept(dead.state, now', works) == Swept(w.state, now', works)
  {
    var items, die := DueIds(w.state.rows, now), Die(task);
    var w1 := Next(w, Select(task, now));
    SelectStep(w, task, now);
    FirstItems(w.state.rows, now, k);
    assert w1.tasks[task].items[0..0 + k] == items[..k];
    var w2 := SomeRemoves(w1, task, works, items[..k]);
    dead := Next(w2, die);
    LeadsOne(w2, die);
    LoadedAndEnded(w.tasks, task, w1.tasks[task], w2.tasks[task]);
    LeadsConcat(w1, Removes(task, items[..k], works), [die], w2, dead);
    LeadsFirst(w, Select(task, now), Removes(task, items[..k], works) + [die], dead);
    SweptAfterSome(w.state, now, works, items[..k], now');
    assert dead.state == State(w.state.rows, UnlinkAll(w.state.disk, w.state.rows, items[..k], works));
  }

  lemma FirstItems(rows: seq<Row>, now: int, k: nat)
    requires k <= |DueIds(rows, now)|
    ensures forall i | i in DueIds(rows, now)[..k] :: i < |rows| && Due(rows[i], now)
  {
    DueIdsMeaning(rows, now);
    assert forall i | i in DueIds(rows, now)[..k] :: i in DueIds(rows, now);
  }

  /** The next unlinks of a task, for these items. */
  predicate NextUp(rows: seq<Row>, t: Task, items: seq<nat>) {
    && t.outcome != Restored && t.step + |items| <= |t.items| && t.items[t.step..t.step + |items|] == items
    && forall i | i in items :: i < |rows|
  }

  lemma FirstOf(w: World, task: nat, items: seq<nat>, works: bool)
    requires TrashInv(w) && task in w.tasks && items != [] && NextUp(w.state.rows, w.tasks[task], items)
    ensures items[0] < |w.state.rows| && Enabled(w, Remove(task, works))
    ensures var t, w' := w.tasks[task], Next(w, Remove(task, works));
            && w'.state.rows == w.state.rows && w'.copies == w.copies && TrashInv(w')
            && w'.state.disk == Trash.Unlink(w.state.disk, w.state.rows[items[0]].trashPath, works)
            && w'.tasks == w.tasks[task := t.(step := t.step + 1)] && NextUp(w.state.rows, w'.tasks[task], items[1..])
  {
    var t := w.tasks[task];
    assert items[0] in items && t.items[t.step] == items[0];
    RemoveStep(w, task, works);
    assert t.items[t.step + 1..t.step + |items|] == items[1..];
    assert forall i | i in items[1..] :: i in items;
  }

  lemma {:induction false} SomeRemoves(w: World, task: nat, works: nat -> bool, items: seq<nat>) returns (w': World)
    requires TrashInv(w) && task in w.tasks && NextUp(w.state.rows, w.tasks[task], items)
    ensures Leads(w, Removes(task, items, works), w') && TrashInv(w')
    ensures w'.state.disk == UnlinkAll(w.state.disk, w.state.rows, items, works)
    ensures w'.state.rows == w.state.rows && w'.copies == w.copies
    ensures w'.tasks == w.tasks[task := w.tasks[task].(step := w.tasks[task].step + |items|)]
    decreases |items|
  {
    var t := w.tasks[task];
    if items == [] {
      w' := w;
      assert w.tasks[task := t] == w.tasks;
    } else {
      var m := Remove(task, works(items[0]));
      FirstOf(w, task, items, works(items[0]));
      var w1 := Next(w, m);
      w' := SomeRemoves(w1, task, works, items[1..]);
      LoadedAndEnded(w.tasks, task, w1.tasks[task], t.(step := t.step + |items|));
      LeadsFirst(w, m, Removes(task, items[1..], works), w');
    }
  }

  lemma SweptAfterSome(s: State, now: int, works: nat -> bool, items: seq<nat>, now': int)
    requires forall i | i in items :: i < |s.rows| && Due(s.rows[i], now)
    requires now <= now'
    ensures Swept(State(s.rows, UnlinkAll(s.disk, s.rows, items, works)), now', works) == Swept(s, now', works)
  {
    var some := UnlinkAll(s.disk, s.rows, items, works);
    var a, b := SweptDisk(some, s.rows, now', works), SweptDisk(s.disk, s.rows, now', works);
    forall p ensures (p in a <==> p in b) && (p in a ==> a[p] == b[p]) {
      UnlinkAllMeaning(s.disk, s.rows, items, works, p);
      SweptDiskMeaning(some, s.rows, now', works, p);
      SweptDiskMeaning(s.disk, s.rows, now', works, p);
    }
    assert a == b;
  }

  /** Nothing ends the task. */
  predicate GoesOn(moves: seq<Move>, task: nat) {
    forall m | m in moves :: m != Die(task) && !(m.Commit? && m.task == task)
  }

  /** An active row is as it always was. */
  lemma {:induction false} ActiveIsAsBefore(w: World, moves: seq<Move>, i: nat)
    requires IsRun(w, moves) && i < |w.state.rows|
    ensures i < |After(w, moves).state.rows|
    ensures Active(After(w, moves).state.rows[i]) ==> After(w, moves).state.rows[i] == w.state.rows[i]
    decreases |moves|
  {
    if moves != [] {
      ActiveIsAsBefore(Next(w, moves[0]), moves[1..], i);
    }
  }

  lemma {:induction false} LoadedStaysLoaded(w: World, moves: seq<Move>, task: nat)
    requires IsRun(w, moves) && GoesOn(moves, task) && task in w.tasks && w.tasks[task].outcome != Restored
    ensures var w' := After(w, moves);
            task in w'.tasks && w'.tasks[task] == w.tasks[task].(step := w'.tasks[task].step)
    decreases |moves|
  {
    if moves != [] {
      assert moves[0] in moves && forall m | m in moves[1..] :: m in moves;
      LoadedStaysLoaded(Next(w, moves[0]), moves[1..], task);
    }
  }

  /** Whatever else went on since the SELECT: if every loaded row is still active, the commit closes exactly
      the rows that the sweep in one step closes, and in the same way. */
  lemma SweepClosesWhatItSaw(w: World, task: nat, now: int, moves: seq<Move>, end: int)
    requires Enabled(w, Select(task, now)) && IsRun(Next(w, Select(task, now)), moves) && GoesOn(moves, task)
    requires Enabled(After(Next(w, Select(task, now)), moves), Commit(task, end))
    ensures var before := After(Next(w, Select(task, now)), moves);
            var after := Next(before, Commit(task, end));
            && |w.state.rows| <= |before.state.rows| == |after.state.rows|
            && ((forall i | 0 <= i < |w.state.rows| && Due(w.state.rows[i], now) :: Active(before.state.rows[i])) ==>
                  forall i | 0 <= i < |after.state.rows| ::
                    after.state.rows[i] == if i < |w.state.rows| && Due(w.state.rows[i], now)
                                           then SweptRow(w.state.rows[i], now) else before.state.rows[i])
  {
    var w1 := Next(w, Select(task, now));
    var before := After(w1, moves);
    LoadedStaysLoaded(w1, moves, task);
    DueIdsMeaning(w.state.rows, now);
    RowsOnlyGrow(w1, moves);
    forall i | 0 <= i < |w.state.rows|
      ensures Active(before.state.rows[i]) ==> before.state.rows[i] == w.state.rows[i]
    {
      ActiveIsAsBefore(w1, moves, i);
    }
  }

  lemma {:induction false} RowsOnlyGrow(w: World, moves: seq<Move>)
    requires IsRun(w, moves)
    ensures |w.state.rows| <= |After(w, moves).state.rows|
    decreases |moves|
  {
    if moves != [] {
      RowsOnlyGrow(Next(w, moves[0]), moves[1..]);
    }
  }

  // ----- a delete and a restore -----

  lemma OpenStep(w: World, task: nat, id: nat, outcome: Outcome)
    requires TrashInv(w) && Enabled(w, Open(task, id, outcome))
    ensures var w' := Next(w, Open(task, id, outcome));
            && w' == w.(tasks := w.tasks[task := Task(outcome, 0, [id], 0)]) && TrashInv(w')
            && id < |w.state.rows| && Known(w.state.rows, w'.tasks[task])
  {
    MoveKeepsInv(w, Open(task, id, outcome));
  }

  /** A delete that nothing disturbs is the delete in one step. */
  lemma UndisturbedDeleteIsAtomic(w: World, task: nat, id: nat, now: int, works: bool) returns (after: World)
    requires TrashInv(w) && Enabled(w, Open(task, id, Deleted))
    ensures Leads(w, [Open(task, id, Deleted)] + ([Remove(task, works)] + [Commit(task, now)]), after)
    ensures id < |w.state.rows| && after.state == DeletedNow(w.state, id, now, works) && after.tasks == w.tasks
  {
    OpenStep(w, task, id, Deleted);
    var w1 := Next(w, Open(task, id, Deleted));
    RemoveStep(w1, task, works);
    var w2 := Next(w1, Remove(task, works));
    CommitStep(w2, task, now);
    after := Next(w2, Commit(task, now));
    LoadedAndEnded(w.tasks, task, w1.tasks[task], w2.tasks[task]);
    ClosedOne(w.state.rows, id, now, Deleted);
    LeadsOne(w2, Commit(task, now));
    LeadsFirst(w1, Remove(task, works), [Commit(task, now)], after);
    LeadsFirst(w, Open(task, id, Deleted), [Remove(task, works)] + [Commit(task, now)], after);
  }

  function RestoreAlone(s: State, task: nat, id: nat, now: int, put: PutBack): seq<Move>
    requires id < |s.rows|
  {
    var reply := RestoreReply(s, id, put);
    [Open(task, id, Restored)]
    + if reply == Conflict then [Look(task)]
      else [Look(task)] + if reply == Done then [GiveBack(task, put)] + [Commit(task, now)] else [GiveBack(task, put)]
  }

  lemma LookStep(w: World, task: nat, id: nat)
    requires task in w.tasks && w.tasks[task] == Task(Restored, 0, [id], 0) && id < |w.state.rows|
    ensures Enabled(w, Look(task))
    ensures Next(w, Look(task)) == w.(tasks := if w.state.rows[id].originalPath in w.state.disk then w.tasks - {task}
                                               else w.tasks[task := Task(Restored, 0, [id], 1)])
  {
    assert At(w, task, true, 0);
  }

  lemma GiveStep(w: World, task: nat, id: nat, put: PutBack)
    requires task in w.tasks && w.tasks[task] == Task(Restored, 0, [id], 1) && id < |w.state.rows|
    requires w.state.rows[id].originalPath !in w.state.disk
    ensures Enabled(w, GiveBack(task, put))
    ensures Next(w, GiveBack(task, put)) ==
            w.(state := w.state.(disk := RestoredDisk(w.state, id, put)),
               tasks := if RestoreReply(w.state, id, put) == Done then w.tasks[task := Task(Restored, 0, [id], 2)]
                        else w.tasks - {task})
  {
    assert At(w, task, true, 1) && Loaded(w, task) == w.state.rows[id];
  }

  lemma RestoreCommit(w: World, task: nat, id: nat, now: int)
    requires task in w.tasks && w.tasks[task] == Task(Restored, 0, [id], 2) && id < |w.state.rows|
    ensures Enabled(w, Commit(task, now))
    ensures Next(w, Commit(task, now)) ==
            w.(state := w.state.(rows := w.state.rows[id := Closed(w.state.rows[id], now, Restored)]), tasks := w.tasks - {task})
  {
    ClosedOne(w.state.rows, id, now, Restored);
  }

  /** A restore that nothing disturbs is the restore in one step, and ends where that one answers. */
  lemma UndisturbedRestoreIsAtomic(w: World, task: nat, id: nat, now: int, put: PutBack) returns (after: World)
    requires TrashInv(w) && Enabled(w, Open(task, id, Restored)) && id < |w.state.rows|
    ensures Leads(w, RestoreAlone(w.state, task, id, now, put), after)
    ensures after.state == RestoredNow(w.state, id, now, put) && after.tasks == w.tasks
  {
    var open, look, give, commit := Open(task, id, Restored), Look(task), GiveBack(task, put), Commit(task, now);
    OpenStep(w, task, id, Restored);
    var w1 := Next(w, open);
    LookStep(w1, task, id);
    var w2 := Next(w1, look);
    LoadedAndEnded(w.tasks, task, Task(Restored, 0, [id], 0), Task(Restored, 0, [id], 1));
    LoadedAndEnded(w.tasks, task, Task(Restored, 0, [id], 1), Task(Restored, 0, [id], 2));
    LoadedAndEnded(w.tasks, task, Task(Restored, 0, [id], 2), Task(Restored, 0, [id], 2));
    if RestoreReply(w.state, id, put) == Conflict {
      after := w2;
      LeadsOne(w1, look);
      LeadsFirst(w, open, [look], after);
    } else if RestoreReply(w.state, id, put) == Done {
      GiveStep(w2, task, id, put);
      var w3 := Next(w2, give);
      RestoreCommit(w3, task, id, now);
      after := Next(w3, commit);
      LeadsOne(w3, commit);
      LeadsFirst(w2, give, [commit], after);
      LeadsFirst(w1, look, [give] + [commit], after);
      LeadsFirst(w, open, [look] + ([give] + [commit]), after);
    } else {
      GiveStep(w2, task, id, put);
      after := Next(w2, give);
      LeadsOne(w2, give);
      LeadsFirst(w1, look, [give], after);
      LeadsFirst(w, open, [look] + [give], after);
    }
  }

  // ----- a restore in the gap of a sweep -----

  /** An operator may restore any item that is due while the sweep is between its SELECT and its unlinks: the
      restore goes through, and then the sweep takes the copy and writes its own outcome over the row. */
  lemma SweepUndoesRestore(w: World, sweep: nat, task: nat, id: nat, now: int, at: int, end: int)
    returns (sweeping: seq<Move>, restored: World, swept: World)
    requires TrashInv(w) && Enabled(w, Select(sweep, now)) && task !in w.tasks && task != sweep
    requires id < |w.state.rows| && Due(w.state.rows[id], now) && RestoreReply(w.state, id, Linked) == Done
    ensures Leads(w, [Select(sweep, now)] + RestoreAlone(w.state, task, id, at, Linked), restored)
    ensures Leads(restored, sweeping, swept)
    ensures var row := w.state.rows[id];
            && id < |restored.state.rows| && restored.state.rows[id] == Closed(row, at, Restored)
            && row.trashPath in restored.state.disk
            && id < |swept.state.rows| && swept.state.rows[id] == Closed(row, now, Expired)
            && row.trashPath !in swept.state.disk
  {
    var row, items, works := w.state.rows[id], DueIds(w.state.rows, now), (i: nat) => true;
    SelectStep(w, sweep, now);
    var w1 := Next(w, Select(sweep, now));
    restored := UndisturbedRestoreIsAtomic(w1, task, id, at, Linked);
    LeadsFirst(w, Select(sweep, now), RestoreAlone(w.state, task, id, at, Linked), restored);
    RunKeepsInv(w1, RestoreAlone(w.state, task, id, at, Linked));
    assert items[0..] == items;
    DueIdsMeaning(w.state.rows, now);
    var unlinked := RemovesRun(restored, sweep, works);
    UnlinkAllMeaning(restored.state.disk, restored.state.rows, items, works, row.trashPath);
    CommitStep(unlinked, sweep, end);
    swept := Next(unlinked, Commit(sweep, end));
    LeadsOne(unlinked, Commit(sweep, end));
    sweeping := Removes(sweep, items, works) + [Commit(sweep, end)];
    LeadsConcat(restored, Removes(sweep, items, works), [Commit(sweep, end)], unlinked, swept);
  }
}
