/**
 The daily quota of `refsubs.py`: reserve, then commit or release, each step under the quota lock.
 A reservation is committed when a download link has been obtained, and released otherwise.
 */
module RefSubQuota {
  import opened Options

  datatype Saved = Saved(date: int, count: nat)

  /** `_load_quota`: a counter of another day, or none, reads as 0. */
  function Load(file: Option<Saved>, today: int): nat {
    if file.Some? && file.value.date == today then file.value.count else 0
  }

  /** `inFlight`: the day each unfinished fetch reserved on; `committed`: links obtained by fetches that
      reserved today; `initial`: what the counter read when the day, or the process, began. */
  datatype World = World(today: int, file: Option<Saved>, inFlight: map<nat, int>, committed: nat, initial: nat)

  datatype Move = Reserve(fetch: nat) | Commit(fetch: nat) | Release(fetch: nat) | Midnight

  predicate Enabled(w: World, m: Move) {
    match m
    case Reserve(fetch) => fetch !in w.inFlight
    case Commit(fetch) => fetch in w.inFlight
    case Release(fetch) => fetch in w.inFlight
    case Midnight => true
  }

  function Count(w: World): nat {
    Load(w.file, w.today)
  }

  function Next(quota: int, w: World, m: Move): World {
    match m
    case Reserve(fetch) =>
      if Count(w) >= quota then w
      else w.(file := Some(Saved(w.today, Count(w) + 1)), inFlight := w.inFlight[fetch := w.today])
    case Commit(fetch) =>
      if fetch in w.inFlight then
        w.(inFlight := w.inFlight - {fetch},
           committed := w.committed + if w.inFlight[fetch] == w.today then 1 else 0)
      else w
    case Release(fetch) =>
      w.(file := Some(Saved(w.today, if Count(w) == 0 then 0 else Count(w) - 1)), inFlight := w.inFlight - {fetch})
    case Midnight => w.(today := w.today + 1, committed := 0, initial := 0)
  }

  /** The fetches in flight that reserved today. */
  function ReservedToday(w: World): set<nat> {
    set f | f in w.inFlight && w.inFlight[f] == w.today
  }

  ghost predicate Conserved(w: World) {
    Count(w) == w.initial + w.committed + |ReservedToday(w)|
  }

  ghost predicate WellDated(w: World) {
    && (w.file.Some? ==> w.file.value.date <= w.today)
    && forall f | f in w.inFlight :: w.inFlight[f] <= w.today
  }

  /** A release that belongs to an earlier day's reservation and finds something to take away. */
  predicate IsLateRelease(w: World, m: Move) {
    m.Release? && m.fetch in w.inFlight && w.inFlight[m.fetch] != w.today && Count(w) > 0
  }

  lemma FetchIsOver(w: World, w': World, fetch: nat)
    requires w'.today == w.today && w'.inFlight == w.inFlight - {fetch}
    ensures |ReservedToday(w')| == |ReservedToday(w)| - if fetch in ReservedToday(w) then 1 else 0
  {
    assert ReservedToday(w') == ReservedToday(w) - {fetch};
  }

  /** Each step keeps the books if and only if it is not a late release. */
  lemma StepConservesIff(quota: int, w: World, m: Move)
    requires WellDated(w) && Conserved(w) && Enabled(w, m)
    ensures WellDated(Next(quota, w, m))
    ensures Conserved(Next(quota, w, m)) <==> !IsLateRelease(w, m)
  {
    var w' := Next(quota, w, m);
    match m
    case Reserve(fetch) =>
      if w' != w {
        assert ReservedToday(w') == ReservedToday(w) + {fetch};
      }
    case Commit(fetch) =>
      FetchIsOver(w, w', fetch);
    case Release(fetch) =>
      FetchIsOver(w, w', fetch);
    case Midnight =>
      assert ReservedToday(w') == {};
  }

  /** In a conserved world a release of today's reservation never needs the clamp at 0. */
  lemma ClampIdle(w: World, fetch: nat)
    requires Conserved(w) && fetch in ReservedToday(w)
    ensures Count(w) >= 1
  {
    assert |ReservedToday(w)| >= 1;
  }

  function After(quota: int, w: World, moves: seq<Move>): World {
    if moves == [] then w
    else Next(quota, After(quota, w, moves[..|moves| - 1]), moves[|moves| - 1])
  }

  /** A run in which every release of the day is of the day's own reservations. */
  ghost predicate IsRun(quota: int, w: World, moves: seq<Move>) {
    forall k | 0 <= k < |moves| ::
      Enabled(After(quota, w, moves[..k]), moves[k]) && !IsLateRelease(After(quota, w, moves[..k]), moves[k])
  }

  function Max(a: int, b: int): int {
    if a < b then b else a
  }

  /** Quota conservation, for every interleaving of fetches: the stored count is the initial value plus
      the links obtained plus the reservations in flight, it never passes the quota unless it began
      above it, and so fetches that obtained a link never take it past the quota. */
  lemma {:induction false} QuotaConservation(quota: int, w: World, moves: seq<Move>)
    requires WellDated(w) && Conserved(w) && Count(w) <= Max(w.initial, quota)
    requires IsRun(quota, w, moves)
    ensures var w' := After(quota, w, moves);
            && WellDated(w') && Conserved(w') && Count(w') <= Max(w'.initial, quota)
            && (w'.committed > 0 && w'.initial <= quota ==> w'.initial + w'.committed <= quota)
    decreases |moves|
  {
    if moves != [] {
      var init := moves[..|moves| - 1];
      forall k | 0 <= k < |init|
        ensures Enabled(After(quota, w, init[..k]), init[k]) && !IsLateRelease(After(quota, w, init[..k]), init[k])
      {
        assert init[..k] == moves[..k];
      }
      QuotaConservation(quota, w, init);
      var last := After(quota, w, init);
      StepConservesIff(quota, last, moves[|moves| - 1]);
    }
  }

  /** What a late release costs: with a quota of 1, a fetch that reserved yesterday and fails today
      lets two fetches obtain a link today. */
  lemma LateReleaseBreaksTheQuota()
    ensures var w0 := World(0, None, map[], 0, 0);
            var moves := [Reserve(0), Midnight, Reserve(1), Release(0), Reserve(2), Commit(1), Commit(2)];
            && WellDated(w0) && Conserved(w0)
            && (forall k | 0 <= k < |moves| :: Enabled(After(1, w0, moves[..k]), moves[k]))
            && After(1, w0, moves).committed == 2
  {
    var w0 := World(0, None, map[], 0, 0);
    var moves := [Reserve(0), Midnight, Reserve(1), Release(0), Reserve(2), Commit(1), Commit(2)];
    var w1 := Next(1, w0, moves[0]);
    var w2 := Next(1, w1, moves[1]);
    var w3 := Next(1, w2, moves[2]);
    var w4 := Next(1, w3, moves[3]);
    var w5 := Next(1, w4, moves[4]);
    var w6 := Next(1, w5, moves[5]);
    assert moves[..1][..0] == [] && moves[..2][..1] == moves[..1] && moves[..3][..2] == moves[..2];
    assert moves[..4][..3] == moves[..3] && moves[..5][..4] == moves[..4] && moves[..6][..5] == moves[..5];
    assert After(1, w0, moves[..0]) == w0;
    assert After(1, w0, moves[..1]) == w1;
    assert After(1, w0, moves[..2]) == w2;
    assert After(1, w0, moves[..3]) == w3;
    assert After(1, w0, moves[..4]) == w4;
    assert After(1, w0, moves[..5]) == w5;
    assert After(1, w0, moves[..6]) == w6;
    assert moves[..7] == moves;
  }

  /** The service in its own form: the counter file and the two lock-guarded methods. */
  class RefSubService {
    const dailyQuota: int
    var file: Option<Saved>

    constructor (dailyQuota: int)
      ensures this.dailyQuota == dailyQuota && file == None
    {
      this.dailyQuota := dailyQuota;
      file := None;
    }

    method LoadQuota(today: int) returns (data: Saved)
      ensures data == Saved(today, Load(file, today))
    {
      data := Saved(today, 0);
      if file.Some? && file.value.date == today {
        data := file.value;
      }
    }

    method ReserveQuota(today: int) returns (granted: bool)
      modifies this
      ensures granted <==> Load(old(file), today) < dailyQuota
      ensures file == if granted then Some(Saved(today, Load(old(file), today) + 1)) else old(file)
    {
      var data := LoadQuota(today);
      if data.count >= dailyQuota {
        return false;
      }
      data := data.(count := data.count + 1);
      file := Some(data);
      return true;
    }

    method ReleaseQuota(today: int)
      modifies this
      ensures file == Some(Saved(today, if Load(old(file), today) == 0 then 0 else Load(old(file), today) - 1))
    {
      var data := LoadQuota(today);
      data := data.(count := if data.count - 1 > 0 then data.count - 1 else 0);
      file := Some(data);
    }

    /** `_fetch` on its own: the reservation is released unless a link was obtained. */
    method Fetch(reservedOn: int, search: Option<nat>, link: Option<string>, releasedOn: int) returns (obtained: bool)
      modifies this
      ensures obtained <==> Load(old(file), reservedOn) < dailyQuota && search.Some? && link.Some?
      ensures reservedOn == releasedOn ==>
                Load(file, reservedOn) == Load(old(file), reservedOn) + if obtained then 1 else 0
    {
      var granted := ReserveQuota(reservedOn);
      if !granted {
        return false;
      }
      var committed := false;
      if search.Some? && link.Some? {
        committed := true;
      }
      if !committed {
        ReleaseQuota(releasedOn);
      }
      return committed;
    }
  }

  /** Concurrent fetches on one service: the lock makes each reservation and release one step, and the
      counter file is at every moment the one of the abstract run. */
  method DriveFetches(quota: int, moves: seq<Move>) returns (service: RefSubService)
    requires forall k | 0 <= k < |moves| :: Enabled(After(quota, World(0, None, map[], 0, 0), moves[..k]), moves[k])
    ensures fresh(service) && service.file == After(quota, World(0, None, map[], 0, 0), moves).file
  {
    service := new RefSubService(quota);
    ghost var w0 := World(0, None, map[], 0, 0);
    var today := 0;
    for k := 0 to |moves|
      invariant fresh(service) && service.dailyQuota == quota
      invariant After(quota, w0, moves[..k]).today == today && After(quota, w0, moves[..k]).file == service.file
    {
      assert moves[..k + 1][..k] == moves[..k];
      assert Enabled(After(quota, w0, moves[..k]), moves[k]);
      match moves[k]
      case Reserve(_) =>
        var granted := service.ReserveQuota(today);
      case Commit(_) =>
      case Release(_) =>
        service.ReleaseQuota(today);
      case Midnight =>
        today := today + 1;
    }
    assert moves[..|moves|] == moves;
  }
}
