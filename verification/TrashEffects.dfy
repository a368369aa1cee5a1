/** What one sweep, delete or restore does when nothing comes in between. */
module TrashEffects {
  import opened Options
  import opened Trash

  /** A sweep removes exactly the copies of the due items it could unlink. */
  lemma {:induction false} SweptDiskMeaning(disk: Disk, rows: seq<Row>, now: int, works: nat -> bool, p: string)
    ensures p in SweptDisk(disk, rows, now, works) <==>
            p in disk && forall i | 0 <= i < |rows| && Due(rows[i], now) && works(i) :: rows[i].trashPath != p
    ensures p in SweptDisk(disk, rows, now, works) ==> SweptDisk(disk, rows, now, works)[p] == disk[p]
    decreases |rows|
  {
    if rows != [] {
      var n := |rows| - 1;
      SweptDiskMeaning(disk, rows[..n], now, works, p);
      assert forall i | 0 <= i < n :: rows[..n][i] == rows[i];
    }
  }

  /** What a sweep closes: an active item exactly if its retention is over, as expired at the sweep's time; its
      copy is unlinked, if that works, and every other row and copy stays. */
  lemma SweepTakesIff(s: State, now: int, works: nat -> bool, i: nat)
    requires i < |s.rows|
    ensures var row, row' := s.rows[i], Swept(s, now, works).rows[i];
            && (row' != row <==> row.deletedAt.None? && row.expiresAt < now)
            && (row' != row ==> row' == Row(row.originalPath, row.trashPath, row.expiresAt, Some(now), Some(Expired)))
    ensures forall p | p in s.disk ::
              p !in Swept(s, now, works).disk <==>
              exists j :: 0 <= j < |s.rows| && s.rows[j].trashPath == p && s.rows[j].deletedAt.None? && s.rows[j].expiresAt < now && works(j)
  {
    forall p | p in s.disk
      ensures p !in Swept(s, now, works).disk <==>
              exists j :: 0 <= j < |s.rows| && s.rows[j].trashPath == p && s.rows[j].deletedAt.None? && s.rows[j].expiresAt < now && works(j)
    {
      SweptDiskMeaning(s.disk, s.rows, now, works, p);
    }
  }

  /** A sweep that died does no harm: a later full sweep, with the same unlinks failing, ends in the state
      it would have reached alone. */
  lemma CutSweepIsHarmless(s: State, now: int, k: nat, now': int, works: nat -> bool)
    requires k <= |s.rows| && now <= now'
    ensures SweepCut(s, now, works, k).rows == s.rows
    ensures forall p :: p in SweepCut(s, now, works, k).disk <==>
              p in s.disk && forall i | 0 <= i < k && Due(s.rows[i], now) && works(i) :: s.rows[i].trashPath != p
    ensures Swept(SweepCut(s, now, works, k), now', works) == Swept(s, now', works)
  {
    var cut := SweepCut(s, now, works, k);
    forall p ensures p in cut.disk <==>
        p in s.disk && forall i | 0 <= i < k && Due(s.rows[i], now) && works(i) :: s.rows[i].trashPath != p {
      SweptDiskMeaning(s.disk, s.rows[..k], now, works, p);
    }
    forall p ensures (p in Swept(cut, now', works).disk <==> p in Swept(s, now', works).disk)
                  && (p in Swept(s, now', works).disk ==> Swept(cut, now', works).disk[p] == Swept(s, now', works).disk[p]) {
      SweptDiskMeaning(s.disk, s.rows[..k], now, works, p);
      SweptDiskMeaning(cut.disk, s.rows, now', works, p);
      SweptDiskMeaning(s.disk, s.rows, now', works, p);
      assert forall i | 0 <= i < k && Due(s.rows[..k][i], now) :: Due(s.rows[i], now');
    }
    assert Swept(cut, now', works).disk == Swept(s, now', works).disk;
  }

  /** Sweeping twice is sweeping once. */
  lemma SweepTwice(s: State, now: int, works: nat -> bool)
    ensures Swept(Swept(s, now, works), now, works) == Swept(s, now, works)
  {
    var once := Swept(s, now, works);
    assert SweptRows(once.rows, now) == once.rows;
    NothingDue(once.disk, once.rows, now, works);
  }

  lemma {:induction false} NothingDue(disk: Disk, rows: seq<Row>, now: int, works: nat -> bool)
    requires forall i | 0 <= i < |rows| :: !Due(rows[i], now)
    ensures SweptDisk(disk, rows, now, works) == disk
    decreases |rows|
  {
    if rows != [] {
      NothingDue(disk, rows[..|rows| - 1], now, works);
    }
  }

  /** A failed restore is not always without effect: it leaves the partial file exactly if the copy broke
      off, onto a free path and with the trashed file there to be copied. */
  lemma FailedRestoreChangesIff(s: State, id: nat, now: int, put: PutBack)
    requires Guard(s.rows, id) == Done && RestoreReply(s, id, put) != Done
    ensures RestoredNow(s, id, now, put) != s <==>
            put.BrokeOff? && s.rows[id].originalPath !in s.disk && s.rows[id].trashPath in s.disk
    ensures RestoredNow(s, id, now, put).rows == s.rows
  {
    var s' := RestoredNow(s, id, now, put);
    assert s.rows[id].originalPath in s'.disk && s.rows[id].originalPath !in s.disk ==> s' != s;
  }

  /** A copy that breaks off blocks the next restore until someone removes the partial file. */
  lemma BrokenCopyBlocks(s: State, id: nat, now: int, now': int, partial: nat, put: PutBack)
    requires Guard(s.rows, id) == Done && s.rows[id].originalPath !in s.disk && s.rows[id].trashPath in s.disk
    ensures var s' := RestoredNow(s, id, now, BrokeOff(partial));
            s'.rows == s.rows && RestoreReply(s', id, put) == Conflict && RestoredNow(s', id, now', put) == s'
  {
  }
}
