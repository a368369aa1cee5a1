/** The copies in the trash and the files outside, over runs in which operations interleave. */
module TrashCopies {
  import opened Options
  import opened Trash
  import opened TrashLife
  import opened TrashOutcomes

  // ----- what one move does -----

  /** The move unlinks the copy at this path. */
  predicate Unlinks(w: World, m: Move, path: string) {
    m.Remove? && m.works && m.task in w.tasks && At(w, m.task, false, w.tasks[m.task].step) && Aim(w, m.task) == path
  }

  /** The move writes over a file at this path: only a copy across file systems does. */
  predicate Overwrites(w: World, m: Move, path: string) {
    && m.GiveBack? && At(w, m.task, true, 1) && Loaded(w, m.task).originalPath == path && path in w.state.disk
    && Writes(w.state.disk, Loaded(w, m.task), m.put)
    && Given(w.state.disk, Loaded(w, m.task), m.put)[path] != w.state.disk[path]
  }

  /** Every operation of the trash leaves each file alone, unless it unlinks the copy of a row it has loaded or
      restores by a copy onto a path that was taken after it looked. */
  lemma FileStaysIff(w: World, m: Move, path: string)
    requires TrashInv(w) && Enabled(w, m) && !m.Happen? && path in w.state.disk
    ensures path in Next(w, m).state.disk && Next(w, m).state.disk[path] == w.state.disk[path] <==>
            !Unlinks(w, m, path) && !Overwrites(w, m, path)
  {
  }

  /** A restore that writes onto a free path puts back what was trashed, as long as the copy has not been
      unlinked since. */
  lemma RestoreGivesBack(w: World, task: nat, put: PutBack)
    requires TrashInv(w) && Enabled(w, GiveBack(task, put))
    ensures var row, i, w' := Loaded(w, task), w.tasks[task].items[0], Next(w, GiveBack(task, put));
            && (task in w'.tasks <==> Writes(w.state.disk, row, put) && !put.BrokeOff?)
            && (task in w'.tasks && i !in w.gone ==>
                  i < |w.copies| && row.originalPath in w'.state.disk && w'.state.disk[row.originalPath] == w.copies[i])
  {
    var i := Item(w.state.rows, w.tasks[task], 0);
    assert ItemInv(w, i);
  }

  /** Some restored item's copy is at this path. */
  ghost predicate HoldsRestored(w: World, path: string) {
    exists i :: 0 <= i < |w.state.rows| && IsRestoredAt(w, i, path)
  }

  ghost predicate IsRestoredAt(w: World, i: nat, path: string)
    requires i < |w.state.rows|
  {
    w.state.rows[i].outcome == Some(Restored) && w.state.rows[i].trashPath == path && i !in w.gone
  }

  /** A move takes the copy of a restored item exactly if it unlinks its path: by a sweep or delete that has
      loaded a row with this path, the restored one before it was restored, say. */
  lemma RestoredCopyTakenIff(w: World, m: Move)
    requires TrashInv(w) && Enabled(w, m)
    ensures (exists path :: HoldsRestored(w, path) && path !in Next(w, m).state.disk) <==>
            exists path :: HoldsRestored(w, path) && Unlinks(w, m, path)
  {
    forall path | HoldsRestored(w, path) ensures path !in Next(w, m).state.disk <==> Unlinks(w, m, path) {
      var i :| 0 <= i < |w.state.rows| && IsRestoredAt(w, i, path);
      assert ItemInv(w, i) && w.state.rows[i] in w.state.rows;
      if !m.Happen? {
        FileStaysIff(w, m, path);
        assert !Overwrites(w, m, path);
      }
    }
  }

  // ----- copies for good -----

  /** A sweep or delete in flight is still to unlink this path. */
  predicate Threatened(w: World, path: string) {
    exists t | t in w.tasks :: WillUnlink(w, w.tasks[t], path)
  }

  predicate WillUnlink(w: World, t: Task, path: string) {
    t.outcome != Restored && exists k :: t.step <= k < |t.items| && Names(w.state.rows, t.items[k], path)
  }

  predicate Names(rows: seq<Row>, i: nat, path: string) {
    i < |rows| && rows[i].trashPath == path
  }

  ghost predicate HoldsActive(rows: seq<Row>, path: string) {
    exists row | row in rows :: Active(row) && row.trashPath == path
  }

  ghost predicate Safe(w: World, path: string) {
    path in w.state.disk && InTrash(w.state.rows, path) && !Threatened(w, path) && !HoldsActive(w.state.rows, path)
  }

  lemma LoadedIsActive(w: World, m: Move, i: nat)
    requires Enabled(w, m) && (m.Select? || m.Open?) && i in Next(w, m).tasks[m.task].items
    ensures i < |w.state.rows| && Active(w.state.rows[i])
  {
    if m.Select? {
      DueIdsMeaning(w.state.rows, m.now);
    }
  }

  /** A task after a move is a new one, or an old one that has got on. */
  lemma TaskAfter(w: World, m: Move, t: nat)
    requires Enabled(w, m) && t in Next(w, m).tasks
    ensures var t' := Next(w, m).tasks[t];
            || (t in w.tasks && t'.items == w.tasks[t].items && t'.outcome == w.tasks[t].outcome && t'.step >= w.tasks[t].step)
            || ((m.Select? || m.Open?) && t == m.task)
  {
  }

  lemma PathsStay(w: World, m: Move, i: nat)
    requires Enabled(w, m) && i < |w.state.rows|
    ensures i < |Next(w, m).state.rows| && Next(w, m).state.rows[i].trashPath == w.state.rows[i].trashPath
    ensures Active(Next(w, m).state.rows[i]) ==> Active(w.state.rows[i])
  {
  }

  lemma NotThreatenedAfter(w: World, m: Move, path: string)
    requires TrashInv(w) && Enabled(w, m) && Safe(w, path)
    ensures !Threatened(Next(w, m), path)
  {
    var w' := Next(w, m);
    forall t, k | t in w'.tasks && w'.tasks[t].outcome != Restored && w'.tasks[t].step <= k < |w'.tasks[t].items|
      ensures !Names(w'.state.rows, w'.tasks[t].items[k], path)
    {
      var i := w'.tasks[t].items[k];
      TaskAfter(w, m, t);
      if (m.Select? || m.Open?) && t == m.task {
        LoadedIsActive(w, m, i);
        assert w.state.rows[i] in w.state.rows;
      } else {
        assert TaskInv(w.state.rows, w.tasks[t]) && !WillUnlink(w, w.tasks[t], path);
        assert !Names(w.state.rows, w.tasks[t].items[k], path);
        assert i in w.tasks[t].items;
      }
      PathsStay(w, m, i);
    }
  }

  lemma NotActiveAfter(w: World, m: Move, path: string)
    requires TrashInv(w) && Enabled(w, m) && Safe(w, path)
    ensures InTrash(Next(w, m).state.rows, path) && !HoldsActive(Next(w, m).state.rows, path)
  {
    var rows, rows' := w.state.rows, Next(w, m).state.rows;
    var row :| row in rows && row.trashPath == path;
    var j :| 0 <= j < |rows| && rows[j] == row;
    PathsStay(w, m, j);
    assert rows'[j] in rows';
    forall i | 0 <= i < |rows'| ensures !(Active(rows'[i]) && rows'[i].trashPath == path) {
      if i < |rows| {
        PathsStay(w, m, i);
        assert rows[i] in rows;
      }
    }
  }

  lemma SafeStays(w: World, m: Move, path: string)
    requires TrashInv(w) && Enabled(w, m) && Safe(w, path)
    ensures Safe(Next(w, m), path) && Next(w, m).state.disk[path] == w.state.disk[path]
  {
    NotThreatenedAfter(w, m, path);
    NotActiveAfter(w, m, path);
    var row :| row in w.state.rows && row.trashPath == path;
    if !m.Happen? {
      FileStaysIff(w, m, path);
      UnlinkIsThreatened(w, m, path);
    }
  }

  lemma UnlinkIsThreatened(w: World, m: Move, path: string)
    ensures Unlinks(w, m, path) ==> Threatened(w, path)
  {
    if Unlinks(w, m, path) {
      var t := w.tasks[m.task];
      assert Names(w.state.rows, t.items[t.step], path);
      assert WillUnlink(w, t, path);
    }
  }

  lemma {:induction false} SafeStaysOn(w: World, later: seq<Move>, path: string)
    requires TrashInv(w) && IsRun(w, later) && Safe(w, path)
    ensures Safe(After(w, later), path) && After(w, later).state.disk[path] == w.state.disk[path]
    decreases |later|
  {
    if later != [] {
      SafeStays(w, later[0], path);
      MoveKeepsInv(w, later[0]);
      SafeStaysOn(Next(w, later[0]), later[1..], path);
    }
  }

  ghost predicate Takes(w: World, moves: seq<Move>, path: string) {
    IsRun(w, moves) && path !in After(w, moves).state.disk
  }

  lemma TakesBefore(w: World, m: Move, rest: seq<Move>, path: string)
    requires Enabled(w, m) && Takes(Next(w, m), rest, path)
    ensures Takes(w, [m] + rest, path)
  {
    assert ([m] + rest)[1..] == rest;
  }

  /** A task that is still to unlink the path can get there. */
  lemma {:induction false} Unlinking(w: World, task: nat, k: nat, path: string) returns (moves: seq<Move>)
    requires TrashInv(w) && task in w.tasks && w.tasks[task].outcome != Restored
    requires w.tasks[task].step <= k < |w.tasks[task].items| && Names(w.state.rows, w.tasks[task].items[k], path)
    ensures Takes(w, moves, path)
    decreases k - w.tasks[task].step
  {
    var m := Remove(task, true);
    assert TaskInv(w.state.rows, w.tasks[task]);
    MoveKeepsInv(w, m);
    if w.tasks[task].step == k {
      assert Takes(Next(w, m), [], path);
      TakesBefore(w, m, [], path);
      moves := [m] + [];
    } else {
      var rest := Unlinking(Next(w, m), task, k, path);
      TakesBefore(w, m, rest, path);
      moves := [m] + rest;
    }
  }

  lemma {:induction false} Bound(s: set<nat>) returns (n: nat)
    ensures forall k | k in s :: k < n
  {
    if s == {} {
      n := 0;
    } else {
      var x :| x in s;
      n := Bound(s - {x});
      if n <= x {
        n := x + 1;
      }
      assert forall k | k in s :: k == x || k in s - {x};
    }
  }

  /** An active item can be deleted. */
  lemma Deleting(w: World, i: nat) returns (moves: seq<Move>)
    requires TrashInv(w) && i < |w.state.rows| && Active(w.state.rows[i])
    ensures Takes(w, moves, w.state.rows[i].trashPath)
  {
    var task := Bound(w.tasks.Keys);
    assert task !in w.tasks;
    var m := Open(task, i, Deleted);
    MoveKeepsInv(w, m);
    assert Names(Next(w, m).state.rows, Next(w, m).tasks[task].items[0], w.state.rows[i].trashPath);
    var rest := Unlinking(Next(w, m), task, 0, w.state.rows[i].trashPath);
    TakesBefore(w, m, rest, w.state.rows[i].trashPath);
    moves := [m] + rest;
  }

  ghost predicate StaysForGood(w: World, path: string) {
    forall later | IsRun(w, later) :: path in After(w, later).state.disk
  }

  /** The copy at a path of the trash stays there for good if and only if no active item has the path and no
      sweep or delete in flight is still to unlink it.  Then its content stays, and no new item gets the path. */
  lemma CopyStaysForGoodIff(w: World, path: string)
    requires TrashInv(w) && path in w.state.disk && InTrash(w.state.rows, path)
    ensures StaysForGood(w, path) <==> !HoldsActive(w.state.rows, path) && !Threatened(w, path)
    ensures StaysForGood(w, path) ==> forall later | IsRun(w, later) ::
              path in After(w, later).state.disk && After(w, later).state.disk[path] == w.state.disk[path]
              && forall original :: !NewPaths(After(w, later).state, original, path)
  {
    if HoldsActive(w.state.rows, path) {
      var row :| row in w.state.rows && Active(row) && row.trashPath == path;
      var i :| 0 <= i < |w.state.rows| && w.state.rows[i] == row;
      var moves := Deleting(w, i);
      assert IsRun(w, moves);
    } else if Threatened(w, path) {
      var t :| t in w.tasks && WillUnlink(w, w.tasks[t], path);
      var k :| w.tasks[t].step <= k < |w.tasks[t].items| && Names(w.state.rows, w.tasks[t].items[k], path);
      var moves := Unlinking(w, t, k, path);
      assert IsRun(w, moves);
    } else {
      forall later | IsRun(w, later)
        ensures path in After(w, later).state.disk && After(w, later).state.disk[path] == w.state.disk[path]
      {
        SafeStaysOn(w, later, path);
      }
    }
  }

  /** Over all runs: the copy of a restored item, if no unlink has hit it so far, stays in the trash for good
      under exactly the same condition, with the content that was trashed. */
  lemma RestoredCopiesStayIff(files: Disk, moves: seq<Move>, i: nat)
    requires IsRun(Start(files), moves)
    ensures var w := After(Start(files), moves);
            i < |w.state.rows| && w.state.rows[i].outcome == Some(Restored) && i !in w.gone ==>
              var path := w.state.rows[i].trashPath;
              && i < |w.copies| && path in w.state.disk && w.state.disk[path] == w.copies[i]
              && (StaysForGood(w, path) <==> !HoldsActive(w.state.rows, path) && !Threatened(w, path))
  {
    var w := After(Start(files), moves);
    StartIsGood(files);
    RunKeepsInv(Start(files), moves);
    if i < |w.state.rows| && w.state.rows[i].outcome == Some(Restored) && i !in w.gone {
      assert ItemInv(w, i) && w.state.rows[i] in w.state.rows;
      CopyStaysForGoodIff(w, w.state.rows[i].trashPath);
    }
  }

  // ----- active items -----

  /** Nothing dies between an unlink and its commit, and no trash path is used twice. */
  ghost predicate Clean(w: World, m: Move)
    requires Enabled(w, m)
  {
    && (m.Die? ==> w.tasks[m.task].outcome == Restored || w.tasks[m.task].step == 0)
    && (m.Put? ==> !InTrash(w.state.rows, m.path))
  }

  ghost predicate IsCleanRun(w: World, moves: seq<Move>)
    requires IsRun(w, moves)
    decreases |moves|
  {
    moves == [] || (Clean(w, moves[0]) && IsCleanRun(Next(w, moves[0]), moves[1..]))
  }

  /** An operation in flight has been through with unlinking the item's copy. */
  predicate BeingClosed(w: World, i: nat) {
    exists t | t in w.tasks :: HasUnlinked(w.tasks[t], i)
  }

  predicate HasUnlinked(t: Task, i: nat) {
    t.outcome != Restored && exists k :: 0 <= k < t.step && k < |t.items| && t.items[k] == i
  }

  ghost predicate CleanInv(w: World) {
    && (forall i, j | 0 <= i < j < |w.state.rows| :: w.state.rows[i].trashPath != w.state.rows[j].trashPath)
    && forall i | 0 <= i < |w.state.rows| && Active(w.state.rows[i]) && i in w.gone :: BeingClosed(w, i)
  }

  lemma PathsStayDistinct(w: World, m: Move)
    requires TrashInv(w) && CleanInv(w) && Enabled(w, m) && Clean(w, m)
    ensures var rows' := Next(w, m).state.rows;
            forall i, j | 0 <= i < j < |rows'| :: rows'[i].trashPath != rows'[j].trashPath
  {
    forall i | 0 <= i < |w.state.rows| ensures m.Put? ==> w.state.rows[i].trashPath != m.path {
      assert w.state.rows[i] in w.state.rows;
    }
  }

  /** The commit of the operation closes the item, and nothing else ends it. */
  lemma BeingClosedGoesOn(w: World, m: Move, i: nat)
    requires Enabled(w, m) && Clean(w, m) && i < |w.state.rows| && BeingClosed(w, i)
    ensures i < |Next(w, m).state.rows| && (Active(Next(w, m).state.rows[i]) ==> BeingClosed(Next(w, m), i))
  {
    var w' := Next(w, m);
    var t :| t in w.tasks && HasUnlinked(w.tasks[t], i);
    var k :| 0 <= k < w.tasks[t].step && k < |w.tasks[t].items| && w.tasks[t].items[k] == i;
    if Active(w'.state.rows[i]) {
      assert i in w.tasks[t].items;
      assert t in w'.tasks && w'.tasks[t].items[k] == i;
      assert HasUnlinked(w'.tasks[t], i);
    }
  }

  /** The unlink that takes an item's copy is its own. */
  lemma NewlyGone(w: World, m: Move, i: nat)
    requires CleanInv(w) && Enabled(w, m) && i < |w.state.rows| && i in Next(w, m).gone && i !in w.gone
    ensures BeingClosed(Next(w, m), i)
  {
    var t, t' := w.tasks[m.task], Next(w, m).tasks[m.task];
    assert Item(w.state.rows, t, t.step) == i;
    assert t'.items[t.step] == i && t'.step == t.step + 1;
    assert HasUnlinked(t', i);
  }

  lemma MoveKeepsClean(w: World, m: Move)
    requires TrashInv(w) && CleanInv(w) && Enabled(w, m) && Clean(w, m)
    ensures CleanInv(Next(w, m))
  {
    var w' := Next(w, m);
    PathsStayDistinct(w, m);
    forall i | 0 <= i < |w'.state.rows| && Active(w'.state.rows[i]) && i in w'.gone ensures BeingClosed(w', i) {
      assert m.Put? ==> w'.gone == w.gone;
      if i in w.gone {
        PathsStay(w, m, i);
        BeingClosedGoesOn(w, m, i);
      } else {
        NewlyGone(w, m, i);
      }
    }
  }

  lemma {:induction false} CleanRunKeepsInv(w: World, moves: seq<Move>)
    requires TrashInv(w) && CleanInv(w) && IsRun(w, moves) && IsCleanRun(w, moves)
    ensures CleanInv(After(w, moves)) && TrashInv(After(w, moves))
    decreases |moves|
  {
    if moves != [] {
      MoveKeepsInv(w, moves[0]);
      MoveKeepsClean(w, moves[0]);
      CleanRunKeepsInv(Next(w, moves[0]), moves[1..]);
    }
  }

  /** After every run in which nothing dies between unlinking and committing and no trash path is used twice,
      an active item has its copy as it was made, or a sweep or delete in flight has just unlinked it. */
  lemma ActiveItemsHaveCopies(files: Disk, moves: seq<Move>, i: nat)
    requires IsRun(Start(files), moves) && IsCleanRun(Start(files), moves)
    ensures var w := After(Start(files), moves);
            i < |w.state.rows| && Active(w.state.rows[i]) && !BeingClosed(w, i) ==>
              && i < |w.copies| && w.state.rows[i].trashPath in w.state.disk
              && w.state.disk[w.state.rows[i].trashPath] == w.copies[i]
  {
    StartIsGood(files);
    CleanRunKeepsInv(Start(files), moves);
    var w := After(Start(files), moves);
    if i < |w.state.rows| && Active(w.state.rows[i]) && !BeingClosed(w, i) {
      assert ItemInv(w, i);
    }
  }
}
