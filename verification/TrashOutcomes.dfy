/** What stays as it is for good: the rows of closed items, and the copies in the trash. */
module TrashOutcomes {
  import opened Options
  import opened Trash
  import opened TrashLife

  // ----- the rows -----

  /** Some operation in flight has loaded the item. */
  predicate IsLoaded(w: World, i: nat) {
    exists t | t in w.tasks :: i in w.tasks[t].items
  }

  /** A closed row changes exactly by the commit of an operation that has loaded it, unless that writes the
      same outcome and time once more. */
  lemma ClosedRowChangesIff(w: World, m: Move, i: nat)
    requires TrashInv(w) && Enabled(w, m) && i < |w.state.rows| && !Active(w.state.rows[i])
    ensures i < |Next(w, m).state.rows| && !Active(Next(w, m).state.rows[i])
    ensures Next(w, m).state.rows[i] != w.state.rows[i] <==>
            && m.Commit? && i in w.tasks[m.task].items
            && w.state.rows[i] != Closed(w.state.rows[i], Written(w.tasks[m.task], m.now), w.tasks[m.task].outcome)
  {
  }

  /** A commit leaves every closed row as it was if and only if each row it has loaded is still active, or was
      closed with the same outcome and time. */
  lemma CommitKeepsClosedIff(w: World, m: Move)
    requires TrashInv(w) && Enabled(w, m)
    ensures KeepsClosed(w, m) <==> IsFresh(w, m)
  {
    if m.Commit? {
      assert TaskInv(w.state.rows, w.tasks[m.task]);
    }
    forall i | 0 <= i < |w.state.rows| && !Active(w.state.rows[i])
      ensures Next(w, m).state.rows[i] != w.state.rows[i] <==>
              && m.Commit? && i in w.tasks[m.task].items
              && w.state.rows[i] != Closed(w.state.rows[i], Written(w.tasks[m.task], m.now), w.tasks[m.task].outcome)
    {
      ClosedRowChangesIff(w, m, i);
    }
  }

  ghost predicate KeepsClosed(w: World, m: Move)
    requires Enabled(w, m)
  {
    forall i | 0 <= i < |w.state.rows| && !Active(w.state.rows[i]) ::
      i < |Next(w, m).state.rows| && Next(w, m).state.rows[i] == w.state.rows[i]
  }

  /** Every row that the commit is about to write is still active, or as it will be written. */
  predicate IsFresh(w: World, m: Move) {
    m.Commit? && m.task in w.tasks ==>
      var t, rows := w.tasks[m.task], w.state.rows;
      forall i | i in t.items :: i < |rows| && (Active(rows[i]) || rows[i] == Closed(rows[i], Written(t, m.now), t.outcome))
  }

  ghost predicate AllKeepClosed(w: World, moves: seq<Move>)
    requires IsRun(w, moves)
    decreases |moves|
  {
    moves == [] || (KeepsClosed(w, moves[0]) && AllKeepClosed(Next(w, moves[0]), moves[1..]))
  }

  ghost predicate AllFresh(w: World, moves: seq<Move>)
    requires IsRun(w, moves)
    decreases |moves|
  {
    moves == [] || (IsFresh(w, moves[0]) && AllFresh(Next(w, moves[0]), moves[1..]))
  }

  /** Over every run: no closed row ever changes if and only if every commit finds its rows as it loaded them. */
  lemma {:induction false} RunKeepsClosedIff(w: World, moves: seq<Move>)
    requires TrashInv(w) && IsRun(w, moves)
    ensures AllKeepClosed(w, moves) <==> AllFresh(w, moves)
    decreases |moves|
  {
    if moves != [] {
      CommitKeepsClosedIff(w, moves[0]);
      MoveKeepsInv(w, moves[0]);
      RunKeepsClosedIff(Next(w, moves[0]), moves[1..]);
    }
  }

  lemma {:induction false} ClosedThroughout(w: World, moves: seq<Move>, i: nat)
    requires TrashInv(w) && IsRun(w, moves) && AllFresh(w, moves) && i < |w.state.rows| && !Active(w.state.rows[i])
    ensures i < |After(w, moves).state.rows| && After(w, moves).state.rows[i] == w.state.rows[i]
    decreases |moves|
  {
    if moves != [] {
      CommitKeepsClosedIff(w, moves[0]);
      MoveKeepsInv(w, moves[0]);
      ClosedThroughout(Next(w, moves[0]), moves[1..], i);
    }
  }

  /** A closed item that nothing in flight has loaded is never loaded again. */
  lemma UnloadedStays(w: World, m: Move, i: nat)
    requires TrashInv(w) && Enabled(w, m) && i < |w.state.rows| && !Active(w.state.rows[i]) && !IsLoaded(w, i)
    ensures var w' := Next(w, m);
            i < |w'.state.rows| && w'.state.rows[i] == w.state.rows[i] && !IsLoaded(w', i)
  {
    var w' := Next(w, m);
    if m.Select? {
      DueIdsMeaning(w.state.rows, m.now);
    }
    forall t | t in w'.tasks ensures i !in w'.tasks[t].items {
      if t in w.tasks {
        assert i !in w.tasks[t].items;
      }
    }
    if m.Commit? {
      assert i !in w.tasks[m.task].items;
    }
  }

  lemma {:induction false} UnloadedStaysOn(w: World, later: seq<Move>, i: nat)
    requires TrashInv(w) && IsRun(w, later) && i < |w.state.rows| && !Active(w.state.rows[i]) && !IsLoaded(w, i)
    ensures i < |After(w, later).state.rows| && After(w, later).state.rows[i] == w.state.rows[i]
    decreases |later|
  {
    if later != [] {
      UnloadedStays(w, later[0], i);
      MoveKeepsInv(w, later[0]);
      UnloadedStaysOn(Next(w, later[0]), later[1..], i);
    }
  }

  // ----- what is in flight can finish -----

  /** A run after which row i is as given. */
  ghost predicate Leads(w: World, moves: seq<Move>, i: nat, row: Row) {
    IsRun(w, moves) && i < |After(w, moves).state.rows| && After(w, moves).state.rows[i] == row
  }

  lemma Before(w: World, m: Move, rest: seq<Move>, i: nat, row: Row)
    requires Enabled(w, m) && Leads(Next(w, m), rest, i, row)
    ensures Leads(w, [m] + rest, i, row)
  {
    assert ([m] + rest)[1..] == rest;
  }

  lemma NothingMore(w: World, i: nat)
    requires i < |w.state.rows|
    ensures Leads(w, [], i, w.state.rows[i])
  {
  }

  lemma FinishCommit(w: World, task: nat, i: nat, now: int) returns (moves: seq<Move>)
    requires TrashInv(w) && task in w.tasks && i in w.tasks[task].items && i < |w.state.rows|
    requires w.tasks[task].step == Steps(w.tasks[task])
    ensures Leads(w, moves, i, Closed(w.state.rows[i], Written(w.tasks[task], now), w.tasks[task].outcome))
  {
    var m := Commit(task, now);
    assert TaskInv(w.state.rows, w.tasks[task]);
    NothingMore(Next(w, m), i);
    Before(w, m, [], i, Next(w, m).state.rows[i]);
    moves := [m] + [];
  }

  /** A sweep or delete: the unlinks that are left, here in vain, and the commit. */
  lemma {:induction false} FinishRemoval(w: World, task: nat, i: nat, now: int) returns (moves: seq<Move>)
    requires TrashInv(w) && task in w.tasks && i in w.tasks[task].items && i < |w.state.rows|
    requires w.tasks[task].outcome != Restored
    ensures Leads(w, moves, i, Closed(w.state.rows[i], Written(w.tasks[task], now), w.tasks[task].outcome))
    decreases |w.tasks[task].items| - w.tasks[task].step
  {
    var t := w.tasks[task];
    assert TaskInv(w.state.rows, t);
    if t.step == |t.items| {
      moves := FinishCommit(w, task, i, now);
    } else {
      var m := Remove(task, false);
      MoveKeepsInv(w, m);
      var rest := FinishRemoval(Next(w, m), task, i, now);
      Before(w, m, rest, i, Closed(w.state.rows[i], Written(t, now), t.outcome));
      moves := [m] + rest;
    }
  }

  /** A restore whose original path is free and whose copy is there. */
  lemma FinishRestore(w: World, task: nat, i: nat, now: int) returns (moves: seq<Move>)
    requires TrashInv(w) && task in w.tasks && w.tasks[task].items == [i] && i < |w.state.rows|
    requires w.tasks[task].outcome == Restored
    requires w.state.rows[i].originalPath !in w.state.disk && w.state.rows[i].trashPath in w.state.disk
    ensures Leads(w, moves, i, Closed(w.state.rows[i], now, Restored))
    decreases 2 - w.tasks[task].step
  {
    var t := w.tasks[task];
    assert TaskInv(w.state.rows, t);
    if t.step == 2 {
      moves := FinishCommit(w, task, i, now);
    } else if t.step == 1 {
      var m := GiveBack(task, Linked);
      assert At(w, task, true, 1) && Loaded(w, task) == w.state.rows[i];
      MoveKeepsInv(w, m);
      var rest := FinishCommit(Next(w, m), task, i, now);
      Before(w, m, rest, i, Closed(w.state.rows[i], now, Restored));
      moves := [m] + rest;
    } else {
      var m := Look(task);
      assert At(w, task, true, 0) && Loaded(w, task) == w.state.rows[i];
      MoveKeepsInv(w, m);
      var rest := FinishRestore(Next(w, m), task, i, now);
      Before(w, m, rest, i, Closed(w.state.rows[i], now, Restored));
      moves := [m] + rest;
    }
  }

  /** Somebody removes the file at the original path, and the restore can finish. */
  lemma FinishRestoreOnto(w: World, task: nat, i: nat, now: int) returns (moves: seq<Move>)
    requires TrashInv(w) && task in w.tasks && w.tasks[task].items == [i] && i < |w.state.rows|
    requires w.tasks[task].outcome == Restored && w.state.rows[i].trashPath in w.state.disk
    ensures Leads(w, moves, i, Closed(w.state.rows[i], now, Restored))
  {
    var m := Happen(w.state.rows[i].originalPath, None);
    assert !InTrash(w.state.rows, m.path);
    MoveKeepsInv(w, m);
    assert w.state.rows[i].trashPath != m.path;
    var rest := FinishRestore(Next(w, m), task, i, now);
    Before(w, m, rest, i, Closed(w.state.rows[i], now, Restored));
    moves := [m] + rest;
  }

  /** Even without the copy: another item may take its path. */
  lemma FinishRestoreAnyhow(w: World, task: nat, i: nat, now: int) returns (moves: seq<Move>)
    requires TrashInv(w) && task in w.tasks && w.tasks[task].items == [i] && i < |w.state.rows|
    requires w.tasks[task].outcome == Restored
    ensures Leads(w, moves, i, Closed(w.state.rows[i], now, Restored))
  {
    if w.state.rows[i].trashPath in w.state.disk {
      moves := FinishRestoreOnto(w, task, i, now);
    } else {
      var m := Put(w.state.rows[i].originalPath, w.state.rows[i].trashPath, 0, 0);
      assert NewPaths(w.state, m.original, m.path);
      MoveKeepsInv(w, m);
      var rest := FinishRestoreOnto(Next(w, m), task, i, now);
      Before(w, m, rest, i, Closed(w.state.rows[i], now, Restored));
      moves := [m] + rest;
    }
  }

  /** Whatever has loaded a closed item can still write its own outcome over it. */
  lemma LoadedCanChange(w: World, i: nat) returns (moves: seq<Move>)
    requires TrashInv(w) && i < |w.state.rows| && !Active(w.state.rows[i]) && IsLoaded(w, i)
    ensures IsRun(w, moves) && i < |After(w, moves).state.rows| && After(w, moves).state.rows[i] != w.state.rows[i]
  {
    var task :| task in w.tasks && i in w.tasks[task].items;
    var row, t := w.state.rows[i], w.tasks[task];
    var now := row.deletedAt.value + 1;
    assert TaskInv(w.state.rows, t);
    if t.outcome == Restored {
      assert t.items == [i];
      moves := FinishRestoreAnyhow(w, task, i, now);
    } else {
      moves := FinishRemoval(w, task, i, now);
    }
  }

  ghost predicate StaysClosed(w: World, i: nat)
    requires i < |w.state.rows|
  {
    forall later | IsRun(w, later) ::
      i < |After(w, later).state.rows| && After(w, later).state.rows[i] == w.state.rows[i]
  }

  /** A closed row is final if and only if no operation in flight has loaded it. */
  lemma ClosedIsFinalIff(w: World, i: nat)
    requires TrashInv(w) && i < |w.state.rows| && !Active(w.state.rows[i])
    ensures StaysClosed(w, i) <==> !IsLoaded(w, i)
  {
    if IsLoaded(w, i) {
      var moves := LoadedCanChange(w, i);
      assert IsRun(w, moves);
    } else {
      forall later | IsRun(w, later)
        ensures i < |After(w, later).state.rows| && After(w, later).state.rows[i] == w.state.rows[i]
      {
        UnloadedStaysOn(w, later, i);
      }
    }
  }

  lemma StartIsGood(files: Disk)
    ensures TrashInv(Start(files))
  {
  }

  /** The same over all runs: an item closed at any time, with its outcome and time set together, keeps them
      whatever happens later if and only if nothing that had loaded it while it was active is still in flight. */
  lemma OutcomeIsFinalIff(files: Disk, moves: seq<Move>, i: nat)
    requires IsRun(Start(files), moves)
    ensures var w := After(Start(files), moves);
            i < |w.state.rows| && !Active(w.state.rows[i]) ==>
              w.state.rows[i].outcome.Some? && (StaysClosed(w, i) <==> !IsLoaded(w, i))
  {
    var w := After(Start(files), moves);
    StartIsGood(files);
    RunKeepsInv(Start(files), moves);
    if i < |w.state.rows| && !Active(w.state.rows[i]) {
      assert ItemInv(w, i);
      ClosedIsFinalIff(w, i);
    }
  }

  /** An outcome is set once, together with its time, over every run whose later commits are all fresh. */
  lemma OutcomeIsFinal(files: Disk, moves: seq<Move>, later: seq<Move>, i: nat)
    requires IsRun(Start(files), moves)
    requires IsRun(After(Start(files), moves), later) && AllFresh(After(Start(files), moves), later)
    ensures var w := After(Start(files), moves);
            var w' := After(w, later);
            i < |w.state.rows| && !Active(w.state.rows[i]) ==>
              w.state.rows[i].outcome.Some? && i < |w'.state.rows| && w'.state.rows[i] == w.state.rows[i]
  {
    var w := After(Start(files), moves);
    StartIsGood(files);
    RunKeepsInv(Start(files), moves);
    if i < |w.state.rows| && !Active(w.state.rows[i]) {
      assert ItemInv(w, i);
      ClosedThroughout(w, later, i);
    }
  }

  lemma {:induction false} RowKeepsFile(w: World, moves: seq<Move>, i: nat)
    requires IsRun(w, moves) && i < |w.state.rows|
    ensures i < |After(w, moves).state.rows|
    ensures After(w, moves).state.rows[i].originalPath == w.state.rows[i].originalPath
    ensures After(w, moves).state.rows[i].trashPath == w.state.rows[i].trashPath
    ensures After(w, moves).state.rows[i].expiresAt == w.state.rows[i].expiresAt
    decreases |moves|
  {
    if moves != [] {
      RowKeepsFile(Next(w, moves[0]), moves[1..], i);
    }
  }

  /** Retention is kept: a new item is active with its two paths and its copy on disk, and whatever happens, no
      sweep up to its expiry loads it. */
  lemma RetentionIsKept(w: World, original: string, path: string, expiresAt: int, content: nat,
                        moves: seq<Move>, task: nat, now: int)
    requires Enabled(w, Put(original, path, expiresAt, content))
    requires IsRun(Next(w, Put(original, path, expiresAt, content)), moves)
    requires Enabled(After(Next(w, Put(original, path, expiresAt, content)), moves), Select(task, now))
    ensures var i, put := |w.state.rows|, Next(w, Put(original, path, expiresAt, content));
            && |put.state.rows| == i + 1 && put.state.rows[i] == Row(original, path, expiresAt, None, None)
            && path in put.state.disk && put.state.disk[path] == content
            && (now <= expiresAt ==> i !in Next(After(put, moves), Select(task, now)).tasks[task].items)
  {
    var i, put := |w.state.rows|, Next(w, Put(original, path, expiresAt, content));
    RowKeepsFile(put, moves, i);
    DueIdsMeaning(After(put, moves).state.rows, now);
  }
}
