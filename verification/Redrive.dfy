/**
 The interruption guard over a job instead of a verdict row.  `process_job` and the human verdicts insert a new
 row with an empty log, and a remediation reads and writes the latest row only.
 */
module Redrive {
  import opened Options
  import opened Remediation
  import opened RemediationSafety
  import opened CrashGap

  /** What happens to a job: a new verdict row, or a call of `replace` or `remap`. */
  datatype Act = NewVerdict | Try(attempt: Attempt)

  /** The logs of the job's verdict rows.  Without a row a remediation raises. */
  function Rows(acts: seq<Act>): seq<seq<Entry>> {
    if acts == [] then []
    else
      var rows := Rows(acts[..|acts| - 1]);
      match acts[|acts| - 1]
      case NewVerdict => rows + [[]]
      case Try(x) =>
        if rows == [] then rows
        else
          var log := rows[|rows| - 1];
          rows[|rows| - 1 := log + Logged(Happened(x, log))]
  }

  function Latest(acts: seq<Act>): seq<Entry> {
    var rows := Rows(acts);
    if rows == [] then [] else rows[|rows| - 1]
  }

  /** What act i did to Sonarr, the disk and the log. */
  function Did(acts: seq<Act>, i: nat): seq<Event>
    requires i < |acts|
  {
    if acts[i].NewVerdict? || Rows(acts[..i]) == [] then [] else Happened(acts[i].attempt, Latest(acts[..i]))
  }

  /** Act i logged a mutating step, and no verdict row has come since, up to act j. */
  ghost predicate MutatedSince(acts: seq<Act>, i: nat, j: nat)
    requires i < j <= |acts|
  {
    Mutated(Did(acts, i)) && forall k | i < k < j :: acts[k].Try?
  }

  lemma LatestAfter(acts: seq<Act>, act: Act)
    ensures act.NewVerdict? ==> Latest(acts + [act]) == []
    ensures act.Try? ==> Latest(acts + [act]) == Latest(acts) + Logged(Did(acts + [act], |acts|))
  {
    assert (acts + [act])[..|acts|] == acts;
  }

  lemma DidEarlier(acts: seq<Act>, act: Act, i: nat)
    requires i < |acts|
    ensures Did(acts + [act], i) == Did(acts, i)
  {
    assert (acts + [act])[..i] == acts[..i];
  }

  lemma MutatedSinceStep(acts: seq<Act>, act: Act, i: nat)
    requires i <= |acts|
    ensures MutatedSince(acts + [act], i, |acts| + 1) <==>
            if i < |acts| then MutatedSince(acts, i, |acts|) && act.Try? else Mutated(Did(acts + [act], i))
  {
    var all := acts + [act];
    if i < |acts| {
      DidEarlier(acts, act, i);
      assert (forall k | i < k < |all| :: all[k].Try?) <==> (forall k | i < k < |acts| :: acts[k].Try?) && act.Try? by {
        assert all[|acts|] == act;
        assert forall k | i < k < |acts| :: all[k] == acts[k];
      }
    }
  }

  lemma LoggedInterrupts(log: seq<Entry>, events: seq<Event>)
    ensures WasInterrupted(log + Logged(events)) <==> WasInterrupted(log) || Mutated(events)
  {
    if WasInterrupted(log) {
      var e :| e in log && IsMutatingEntry(e);
      assert e in log + Logged(events);
    } else {
      InterruptedBy(log, events);
    }
  }

  /** Before act j, something was done and no verdict row has come since. */
  ghost predicate Spoilt(acts: seq<Act>, j: nat)
    requires j <= |acts|
  {
    exists i :: 0 <= i < j && MutatedSince(acts, i, j)
  }

  lemma SpoiltBefore(acts: seq<Act>, act: Act)
    requires Spoilt(acts + [act], |acts| + 1)
    ensures (act.Try? && Spoilt(acts, |acts|)) || Mutated(Did(acts + [act], |acts|))
  {
    var i :| 0 <= i < |acts| + 1 && MutatedSince(acts + [act], i, |acts| + 1);
    MutatedSinceStep(acts, act, i);
  }

  lemma SpoiltGoesOn(acts: seq<Act>, act: Act)
    requires act.Try? && Spoilt(acts, |acts|)
    ensures Spoilt(acts + [act], |acts| + 1)
  {
    var i :| 0 <= i < |acts| && MutatedSince(acts, i, |acts|);
    MutatedSinceStep(acts, act, i);
  }

  lemma NowSpoilt(acts: seq<Act>, act: Act)
    requires Mutated(Did(acts + [act], |acts|))
    ensures Spoilt(acts + [act], |acts| + 1)
  {
    MutatedSinceStep(acts, act, |acts|);
  }

  lemma SpoiltStep(acts: seq<Act>, act: Act)
    ensures Spoilt(acts + [act], |acts| + 1) <==>
            (act.Try? && Spoilt(acts, |acts|)) || Mutated(Did(acts + [act], |acts|))
  {
    if Spoilt(acts + [act], |acts| + 1) {
      SpoiltBefore(acts, act);
    } else if act.Try? && Spoilt(acts, |acts|) {
      SpoiltGoesOn(acts, act);
    } else if Mutated(Did(acts + [act], |acts|)) {
      NowSpoilt(acts, act);
    }
  }

  lemma {:induction false} LatestIsInterruptedIff(acts: seq<Act>)
    ensures WasInterrupted(Latest(acts)) <==> Spoilt(acts, |acts|)
    decreases |acts|
  {
    if acts != [] {
      var init, last := acts[..|acts| - 1], acts[|acts| - 1];
      assert acts == init + [last];
      LatestIsInterruptedIff(init);
      LatestAfter(init, last);
      SpoiltStep(init, last);
      if last.Try? {
        LoggedInterrupts(Latest(init), Did(acts, |init|));
      }
    }
  }

  /** The two ways of a remediation, by the latest row's log. */
  lemma Guarded(x: Attempt, log: seq<Entry>)
    requires WasInterrupted(log)
    ensures Happened(x, log) <= GuardEvents(x.cfg) && !Mutated(Happened(x, log))
  {
    InterruptedMeansGuard(x, log);
    GuardIsQuiet(x.cfg);
    PrefixNotMutated(GuardEvents(x.cfg), Happened(x, log));
  }

  lemma PrefixNotMutated(events: seq<Event>, prefix: seq<Event>)
    requires prefix <= events && !Mutated(events)
    ensures !Mutated(prefix)
  {
    forall k | 0 <= k < |prefix| ensures !IsMutatingLog(prefix[k]) {
      assert !IsMutatingLog(events[k]);
    }
  }

  lemma Unguarded(x: Attempt, log: seq<Entry>)
    requires !WasInterrupted(log)
    ensures Happened(x, log) == Happened(x, [])
  {
    PlanAfter(x, [], log);
  }

  lemma DidInPrefix(acts: seq<Act>, i: nat, j: nat)
    requires i < j <= |acts|
    ensures Did(acts[..j], i) == Did(acts, i)
  {
    assert acts[..j][..i] == acts[..i];
  }

  lemma MutatedInPrefix(acts: seq<Act>, i: nat, j: nat)
    requires i < j <= |acts|
    ensures MutatedSince(acts[..j], i, j) <==> MutatedSince(acts, i, j)
  {
    DidInPrefix(acts, i, j);
    assert forall k | i < k < j :: acts[..j][k] == acts[k];
  }

  lemma SpoiltPrefix(acts: seq<Act>, j: nat)
    requires j <= |acts|
    ensures Spoilt(acts[..j], j) <==> Spoilt(acts, j)
  {
    if i :| 0 <= i < j && MutatedSince(acts[..j], i, j) {
      MutatedInPrefix(acts, i, j);
    }
    if i :| 0 <= i < j && MutatedSince(acts, i, j) {
      MutatedInPrefix(acts, i, j);
    }
  }

  /** When the guard stops a remediation of a job: exactly if an earlier one logged a mutating step and no
      verdict row has been inserted since.  Otherwise it runs as if nothing had ever been done. */
  lemma GuardStopsIff(acts: seq<Act>, j: nat)
    requires j < |acts| && acts[j].Try? && Rows(acts[..j]) != []
    ensures WasInterrupted(Latest(acts[..j])) <==> Spoilt(acts, j)
    ensures Spoilt(acts, j) ==> Did(acts, j) <= GuardEvents(acts[j].attempt.cfg) && !Mutated(Did(acts, j))
    ensures !Spoilt(acts, j) ==> Did(acts, j) == Happened(acts[j].attempt, [])
  {
    var x, log := acts[j].attempt, Latest(acts[..j]);
    LatestIsInterruptedIff(acts[..j]);
    SpoiltPrefix(acts, j);
    if WasInterrupted(log) {
      Guarded(x, log);
    } else {
      Unguarded(x, log);
    }
  }

  /** Over the whole life of a job: two remediations both log mutating steps only with a verdict row between them. */
  lemma TwoRunsNeedAVerdict(acts: seq<Act>, i: nat, j: nat)
    requires i < j < |acts|
    ensures Mutated(Did(acts, i)) && Mutated(Did(acts, j)) ==> exists k :: i < k < j && acts[k].NewVerdict?
  {
    if Mutated(Did(acts, i)) && Mutated(Did(acts, j)) && forall k | i < k < j :: acts[k].Try? {
      assert MutatedSince(acts, i, j);
      GuardStopsIff(acts, j);
    }
  }

  /** The worker's redrive always brings that row: whatever was logged before, the remediation starts over.
      The same attempt does the same once more. */
  lemma RedriveStartsOver(acts: seq<Act>, x: Attempt)
    ensures Did(acts + [NewVerdict] + [Try(x)], |acts| + 1) == Happened(x, [])
  {
    var redriven := acts + [NewVerdict];
    assert (redriven + [Try(x)])[..|redriven|] == redriven;
    assert redriven[..|acts|] == acts;
  }
}
