/** `trash.py`: what happens to trashed files, on disk and in their rows. */
module Trash {
  import opened Options

  datatype Outcome = Expired | Deleted | Restored

  /** A `trash_items` row; its id is its position. */
  datatype Row = Row(originalPath: string, trashPath: string, expiresAt: int, deletedAt: Option<int>, outcome: Option<Outcome>)

  /** Files by path; contents are numbers. */
  type Disk = map<string, nat>

  datatype State = State(rows: seq<Row>, disk: Disk)

  predicate Active(row: Row) {
    row.deletedAt.None?
  }

  function Closed(row: Row, now: int, outcome: Outcome): Row {
    row.(deletedAt := Some(now), outcome := Some(outcome))
  }

  /** `_unlink_tolerant`: a failure is logged and nothing else. */
  function Unlink(disk: Disk, path: string, works: bool): Disk {
    if works then disk - {path} else disk
  }

  // ----- the sweep -----

  predicate Due(row: Row, now: int) {
    row.expiresAt < now && Active(row)
  }

  /** The disk after the due rows' files were unlinked, one after the other. */
  function SweptDisk(disk: Disk, rows: seq<Row>, now: int, works: nat -> bool): Disk {
    if rows == [] then disk
    else
      var i := |rows| - 1;
      var before := SweptDisk(disk, rows[..i], now, works);
      if Due(rows[i], now) then Unlink(before, rows[i].trashPath, works(i)) else before
  }

  function SweptRow(row: Row, now: int): Row {
    if Due(row, now) then Closed(row, now, Expired) else row
  }

  function SweptRows(rows: seq<Row>, now: int): (swept: seq<Row>)
    ensures |swept| == |rows|
    ensures forall i | 0 <= i < |rows| :: swept[i] == SweptRow(rows[i], now)
  {
    seq(|rows|, i requires 0 <= i < |rows| => SweptRow(rows[i], now))
  }

  function Swept(s: State, now: int, works: nat -> bool): State {
    State(SweptRows(s.rows, now), SweptDisk(s.disk, s.rows, now, works))
  }

  /** A sweep that dies after it dealt with the first k rows: files are gone, nothing is committed. */
  function SweepCut(s: State, now: int, works: nat -> bool, k: nat): State
    requires k <= |s.rows|
  {
    s.(disk := SweptDisk(s.disk, s.rows[..k], now, works))
  }

  function DueCount(rows: seq<Row>, now: int): nat {
    if rows == [] then 0 else DueCount(rows[..|rows| - 1], now) + if Due(rows[|rows| - 1], now) then 1 else 0
  }

  lemma {:induction false} DueCounts(rows: seq<Row>, now: int)
    ensures DueCount(rows, now) == |set i | 0 <= i < |rows| && rows[i].deletedAt.None? && rows[i].expiresAt < now|
    decreases |rows|
  {
    if rows != [] {
      var n := |rows| - 1;
      DueCounts(rows[..n], now);
      var before := set i | 0 <= i < n && rows[..n][i].deletedAt.None? && rows[..n][i].expiresAt < now;
      var all := set i | 0 <= i < |rows| && rows[i].deletedAt.None? && rows[i].expiresAt < now;
      if rows[n].deletedAt.None? && rows[n].expiresAt < now {
        assert all == before + {n};
      } else {
        assert all == before;
      }
    }
  }

  // ----- the two operations of the API -----

  datatype Reply = Done | NotFound | AlreadyClosed | Conflict | Failed

  /** How putting the file back goes: a hard link, a copy to another file system, a copy that breaks off,
      or an error. */
  datatype PutBack = Linked | Copied | BrokeOff(partial: nat) | Refused

  function Guard(rows: seq<Row>, id: nat): Reply {
    if id >= |rows| then NotFound else if !Active(rows[id]) then AlreadyClosed else Done
  }

  function DeletedNow(s: State, id: nat, now: int, works: bool): State
    requires id < |s.rows|
  {
    State(s.rows[id := Closed(s.rows[id], now, Deleted)], Unlink(s.disk, s.rows[id].trashPath, works))
  }

  function RestoreReply(s: State, id: nat, put: PutBack): Reply
    requires id < |s.rows|
  {
    if s.rows[id].originalPath in s.disk then Conflict
    else if s.rows[id].trashPath !in s.disk || put.Refused? || put.BrokeOff? then Failed
    else Done
  }

  /** The disk after a restore; the trash copy stays. */
  function RestoredDisk(s: State, id: nat, put: PutBack): Disk
    requires id < |s.rows|
  {
    var row := s.rows[id];
    if row.originalPath in s.disk || row.trashPath !in s.disk || put.Refused? then s.disk
    else s.disk[row.originalPath := if put.BrokeOff? then put.partial else s.disk[row.trashPath]]
  }

  function RestoredNow(s: State, id: nat, now: int, put: PutBack): State
    requires id < |s.rows|
  {
    State(if RestoreReply(s, id, put) == Done then s.rows[id := Closed(s.rows[id], now, Restored)] else s.rows,
          RestoredDisk(s, id, put))
  }

  /** The table, the disk and the three operations. */
  class TrashService {
    var rows: seq<Row>
    var disk: Disk

    ghost function Stored(): State
      reads this
    {
      State(rows, disk)
    }

    constructor (files: Disk)
      ensures Stored() == State([], files)
    {
      rows, disk := [], files;
    }

    method SweepExpired(now: int, works: nat -> bool) returns (count: nat)
      modifies this
      ensures Stored() == Swept(old(Stored()), now, works)
      ensures count == |set i | 0 <= i < |old(rows)| && old(rows)[i].deletedAt.None? && old(rows)[i].expiresAt < now|
    {
      DueCounts(rows, now);
      count := 0;
      ghost var before := Stored();
      var staged: seq<Row> := [];
      for i := 0 to |rows|
        invariant rows == before.rows && disk == SweptDisk(before.disk, rows[..i], now, works)
        invariant |staged| == i && forall j | 0 <= j < i :: staged[j] == SweptRow(rows[j], now)
        invariant count == DueCount(rows[..i], now)
      {
        assert rows[..i + 1][..i] == rows[..i];
        var row := rows[i];
        if row.expiresAt < now && row.deletedAt.None? {
          disk := Unlink(disk, row.trashPath, works(i));
          row := Closed(row, now, Expired);
          count := count + 1;
        }
        staged := staged + [row];
      }
      assert rows[..|rows|] == rows;
      assert staged == SweptRows(rows, now);
      rows := staged;
    }

    method DeleteItem(id: nat, now: int, works: bool) returns (reply: Reply)
      modifies this
      ensures reply == Guard(old(rows), id)
      ensures Stored() == if reply == Done then DeletedNow(old(Stored()), id, now, works) else old(Stored())
    {
      reply := GetActive(id);
      if reply == Done {
        disk := Unlink(disk, rows[id].trashPath, works);
        rows := rows[id := rows[id].(deletedAt := Some(now), outcome := Some(Deleted))];
      }
    }

    method GetActive(id: nat) returns (reply: Reply)
      ensures reply == Guard(rows, id)
    {
      if id >= |rows| {
        return NotFound;
      }
      if rows[id].deletedAt.Some? {
        return AlreadyClosed;
      }
      return Done;
    }

    method RestoreItem(id: nat, now: int, put: PutBack) returns (reply: Reply)
      modifies this
      ensures Guard(old(rows), id) != Done ==> reply == Guard(old(rows), id) && Stored() == old(Stored())
      ensures Guard(old(rows), id) == Done ==>
                reply == RestoreReply(old(Stored()), id, put) && Stored() == RestoredNow(old(Stored()), id, now, put)
    {
      reply := GetActive(id);
      if reply != Done {
        return;
      }
      var original, source := rows[id].originalPath, rows[id].trashPath;
      if original in disk {
        return Conflict;
      }
      if source !in disk {
        return Failed;
      }
      match put {
        case Linked => disk := disk[original := disk[source]];
        case Copied => disk := disk[original := disk[source]];
        case BrokeOff(partial) =>
          disk := disk[original := partial];
          return Failed;
        case Refused => return Failed;
      }
      rows := rows[id := rows[id].(deletedAt := Some(now), outcome := Some(Restored))];
    }
  }
}
