/** What the log-changing loops do to a log whose entries sit at their own indices. */
module LogLemmas {
  import opened RaftTypes
  import opened RaftHandlers

  /** Merging a contiguous message never reports a gap and keeps entries at their indices. */
  lemma {:induction false} MergeKeepsGoodLog(logs: seq<Entry>, entries: seq<Entry>, i: nat, prev: int)
    requires GoodLog(logs) && 0 <= prev < |logs|
    requires i <= |entries| && Contiguous(entries, prev + 1)
    requires prev + i < |logs|
    ensures Merge(logs, entries, i, Last(logs).index).Some?
    ensures GoodLog(Merge(logs, entries, i, Last(logs).index).value)
    ensures logs[..prev + 1] <= Merge(logs, entries, i, Last(logs).index).value
    decreases |entries| - i
  {
    if i == |entries| {
    } else if prev + 1 + i < |logs| && logs[prev + 1 + i].term == entries[i].term {
      MergeKeepsGoodLog(logs, entries, i + 1, prev);
    }
  }

  /** The merge loop has nothing to do at this entry. */
  predicate Passes(logs: seq<Entry>, v: Entry)
    requires v.index >= 0
  {
    v.index < |logs| && logs[v.index].term == v.term
  }

  /** Whatever the message, numbered or not: the loop stops at the first entry that it does not pass. An
      entry that fits the end of the log, or clashes with the one at its position, comes in with all
      that follow it; one further on is a gap. */
  lemma {:induction false} MergeStopsAtFirst(logs: seq<Entry>, entries: seq<Entry>, i: nat, k: nat)
    requires GoodLog(logs) && i <= k <= |entries| && forall e :: e in entries ==> e.index >= 0
    requires forall j :: i <= j < k ==> Passes(logs, entries[j])
    requires k < |entries| ==> !Passes(logs, entries[k])
    ensures Merge(logs, entries, i, Last(logs).index) ==
      if k == |entries| then Some(logs)
      else if entries[k].index > |logs| then None
      else Some(logs[..entries[k].index] + entries[k..])
    decreases k - i
  {
    if i == k {
      assert logs[..|logs|] == logs;
    } else {
      assert Passes(logs, entries[i]);
      MergeStopsAtFirst(logs, entries, i + 1, k);
    }
  }

  /** The batch loop's entries come in from the first that fits the end of the log. */
  lemma {:induction false} AppendedFromFirstFit(logs: seq<Entry>, entries: seq<Entry>, i: nat, k: nat)
    requires i <= k <= |entries| && forall j :: i <= j < k ==> entries[j].index != |logs|
    requires k < |entries| ==> entries[k].index == |logs|
    ensures Appended(logs, entries, i) == logs + entries[k..]
    decreases k - i
  {
    if i == k {
    } else {
      AppendedFromFirstFit(logs, entries, i + 1, k);
    }
  }

  /** Slot m holds the last job whose index names it; or the first job, if it is slot 0 and no other
      names it; or nothing. */
  lemma {:induction false} SlotsByIndex(jobs: seq<Entry>, prev: int, count: nat, i: nat, m: nat, k: nat)
    requires 1 <= i <= count <= |jobs| && m < count && k < i
    requires forall j :: 1 <= j < i ==> 0 <= jobs[j].index - prev - 1 < count
    requires forall j :: k < j < i ==> jobs[j].index - prev - 1 != m
    requires k == 0 || jobs[k].index - prev - 1 == m
    ensures Slots(jobs, prev, count, i)[m] == if k > 0 || m == 0 then jobs[k] else SENTINEL
    decreases i
  {
    if i == 1 || k == i - 1 {
    } else {
      SlotsByIndex(jobs, prev, count, i - 1, m, k);
    }
  }

  /** Jobs numbered from the end of the log fill slot k with job k, each slot once. */
  lemma {:induction false} SlotsAreJobs(jobs: seq<Entry>, prev: int, count: nat, i: nat)
    requires 1 <= i <= count <= |jobs| && Contiguous(jobs[..count], prev + 1)
    ensures forall k :: 1 <= k < count ==> 0 <= jobs[k].index - prev - 1 < count
    ensures Slots(jobs, prev, count, i)[..i] == jobs[..i]
  {
    forall k | 0 <= k < count
      ensures jobs[k].index == prev + 1 + k
    {
      assert jobs[..count][k] == jobs[k];
    }
    if i == 1 {
    } else {
      SlotsAreJobs(jobs, prev, count, i - 1);
    }
  }

  /** A batch whose jobs continue the log is appended whole and in order. */
  lemma BatchAppendsJobs(s: Server)
    requires GoodLog(s.logs) && s.jobs != []
    requires Contiguous(s.jobs[..BatchCount(s.jobs)], |s.logs|)
    ensures BatchSafe(s)
    ensures BatchEntries(s) == s.jobs[..BatchCount(s.jobs)]
    ensures Appended(s.logs, BatchEntries(s), 0) == s.logs + s.jobs[..BatchCount(s.jobs)]
    ensures GoodLog(s.logs + s.jobs[..BatchCount(s.jobs)])
  {
    var count := BatchCount(s.jobs);
    SlotsAreJobs(s.jobs, Last(s.logs).index, count, count);
    assert BatchEntries(s)[..count] == BatchEntries(s);
    assert BatchEntries(s)[0] == s.jobs[..count][0];
  }

  /** Under contiguous messages every slice the handler takes is in bounds. */
  lemma ContiguousHeartBeatIsSafe(s: Server, args: AppendArgs)
    requires GoodLog(s.logs) && s.lastApplied >= 0
    requires args.prevLog.index >= 0 && Contiguous(args.entries, args.prevLog.index + 1)
    ensures HeartBeatSafe(s, args)
  {
    forall e | e in args.entries
      ensures e.index >= 0
    {
      var j :| 0 <= j < |args.entries| && args.entries[j] == e;
    }
    if Consistent(s.logs, args.prevLog) {
      MergeKeepsGoodLog(s.logs, args.entries, 0, args.prevLog.index);
    }
  }
}
