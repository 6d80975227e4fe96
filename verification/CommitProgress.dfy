/** The other half of commitment: in a single-leader tenure what half the peers have acknowledged
    is committed as soon as the leader has counted it. */
module CommitProgress {
  import opened RaftTypes
  import opened RaftHandlers
  import opened RaftSteps
  import opened Cluster
  import opened ElectionSafety
  import opened LogMatching
  import opened Tenure

  /** Past its commit index the leader has counted, or waits to count, each of the followers that
      acknowledged idx exactly once; and what it has counted is not half the peers yet. */
  predicate CountOk(s: Server, quorum: int, idx: int, ackers: int) {
    idx > s.commitIdx ==> Pending(s, idx) == ackers && 0 <= Tracked(s.commitTracker, idx) < quorum
  }

  ghost predicate CountsExact(c: Config, l: int)
    requires 0 <= l < |c.servers|
  {
    forall idx :: CountOk(c.servers[l], |c.servers| / 2, idx, |Ackers(c, l, idx)|)
  }

  /** Counting the next acknowledgement: one that reaches half the peers moves the commit index. */
  lemma CommitKeepsCount(s: Server, quorum: int, idx: int, ackers: int)
    requires CommitSafe(s) && quorum == |s.rdy| / 2
    requires CountOk(s, quorum, idx, ackers) && (ackers > 0 ==> idx < |s.logs|)
    ensures CountOk(OnCommit(s), quorum, idx, ackers)
  {
    assert s.commitChnl == [s.commitChnl[0]] + s.commitChnl[1..];
    assert multiset(s.commitChnl)[idx] ==
           multiset(s.commitChnl[1..])[idx] + (if s.commitChnl[0] == idx then 1 else 0);
  }

  lemma AckersOfAppended(c: Config, d: Config, l: int, idx: int, a: Ack)
    requires |d.servers| == |c.servers| && d.acks == c.acks + {a}
    requires a !in c.acks && a.leader == l && 0 <= a.peer < |c.servers|
    ensures |Ackers(d, l, idx)| == |Ackers(c, l, idx)| + (if a.idx == idx then 1 else 0)
  {
    if a.idx == idx {
      assert Ackers(d, l, idx) == Ackers(c, l, idx) + {a.peer};
      assert a.peer !in Ackers(c, l, idx);
    } else {
      assert Ackers(d, l, idx) == Ackers(c, l, idx);
    }
  }

  /** A reply that raises matchIndex waits to be counted once; any other changes no count. */
  lemma ReplyKeepsCounts(c: Config, st: Step, term: int, l: int)
    requires Steady(c, st, term, l) && CountsExact(c, l) && st.event.AppendReplied?
    ensures CountsExact(Next(c, st), l)
  {
    OnlyTheLeaderLeads(c, st, term, l);
    ReplyQueuesAcks(c, st);
    if a :| a in Acknowledges(c, st) {
      AcknowledgementIsFresh(c, st, term, l, a);
      assert Acknowledges(c, st) == {a};
      FreshAckKeepsCounts(c, Next(c, st), l, a);
    } else {
      OtherStepKeepsCounts(c, st, l);
    }
  }

  lemma FreshAckKeepsCounts(c: Config, d: Config, l: int, a: Ack)
    requires 0 <= l < |c.servers| && CountsExact(c, l)
    requires |d.servers| == |c.servers| && d.acks == c.acks + {a}
    requires a !in c.acks && a.leader == l && 0 <= a.peer < |c.servers|
    requires var s, t := c.servers[l], d.servers[l];
      t.commitIdx == s.commitIdx && t.commitTracker == s.commitTracker && t.commitChnl == s.commitChnl + [a.idx]
    ensures CountsExact(d, l)
  {
    forall idx
      ensures CountOk(d.servers[l], |d.servers| / 2, idx, |Ackers(d, l, idx)|)
    {
      assert CountOk(c.servers[l], |c.servers| / 2, idx, |Ackers(c, l, idx)|);
      AckersOfAppended(c, d, l, idx, a);
    }
  }

  lemma ReplyQueuesAcks(c: Config, st: Step)
    requires Enabled(c, st) && st.event.AppendReplied?
    ensures var s, t := c.servers[st.at], Next(c, st).servers[st.at];
      && t.commitIdx == s.commitIdx && t.commitTracker == s.commitTracker
      && (Acknowledges(c, st) == {} ==> t.commitChnl == s.commitChnl)
      && (forall a :: a in Acknowledges(c, st) ==> t.commitChnl == s.commitChnl + [a.idx])
  {
    ReplyAppliesNothing(c.servers[st.at], st.event.peer, st.event.sent, st.event.appendReply);
  }

  lemma OtherStepKeepsCounts(c: Config, st: Step, l: int)
    requires Enabled(c, st) && 0 <= l < |c.servers| && CountsExact(c, l) && Acknowledges(c, st) == {}
    requires var s, t := c.servers[l], Next(c, st).servers[l];
      t.commitIdx == s.commitIdx && t.commitTracker == s.commitTracker && t.commitChnl == s.commitChnl
    ensures CountsExact(Next(c, st), l)
  {
    var d := Next(c, st);
    forall idx
      ensures CountOk(d.servers[l], |d.servers| / 2, idx, |Ackers(d, l, idx)|)
    {
      assert CountOk(c.servers[l], |c.servers| / 2, idx, |Ackers(c, l, idx)|);
      assert Ackers(d, l, idx) == Ackers(c, l, idx);
    }
  }

  /** Only what the leader holds has been acknowledged. */
  lemma AckedIsHeld(c: Config, term: int, l: int, idx: int)
    requires LogInv(c) && TenureInv(c, term, l) && |Ackers(c, l, idx)| > 0
    ensures idx < |c.servers[l].logs|
  {
    var p :| p in Ackers(c, l, idx);
    assert Ack(l, p, idx) in c.acks;
    SoleWinnerPinsLogs(c, term, l, p);
  }

  lemma LeaderCommitKeepsCounts(c: Config, st: Step, term: int, l: int)
    requires Steady(c, st, term, l) && CountsExact(c, l) && st.event.Commit?
    ensures CountsExact(Next(c, st), l)
  {
    OnlyTheLeaderLeads(c, st, term, l);
    CommitStepIs(c, st);
    CommittedCounts(c, Next(c, st), term, l);
  }

  lemma CommitStepIs(c: Config, st: Step)
    requires Enabled(c, st) && st.event.Commit?
    ensures Next(c, st).acks == c.acks && |Next(c, st).servers| == |c.servers|
    ensures Next(c, st).servers[st.at] == OnCommit(c.servers[st.at])
  {
  }

  lemma CommittedCounts(c: Config, d: Config, term: int, l: int)
    requires ElectionInv(c) && LogInv(c) && TenureInv(c, term, l) && CountsExact(c, l) && CommitSafe(c.servers[l])
    requires |d.servers| == |c.servers| && d.acks == c.acks && d.servers[l] == OnCommit(c.servers[l])
    ensures CountsExact(d, l)
  {
    forall idx
      ensures CountOk(d.servers[l], |d.servers| / 2, idx, |Ackers(d, l, idx)|)
    {
      LeaderCommitKeepsCount(c, term, l, idx);
      assert Ackers(d, l, idx) == Ackers(c, l, idx);
    }
  }

  lemma LeaderCommitKeepsCount(c: Config, term: int, l: int, idx: int)
    requires ElectionInv(c) && LogInv(c) && TenureInv(c, term, l) && CountsExact(c, l) && CommitSafe(c.servers[l])
    ensures CountOk(OnCommit(c.servers[l]), |c.servers| / 2, idx, |Ackers(c, l, idx)|)
  {
    assert ServerOk(|c.servers|, c.grants, l, c.servers[l]);
    assert CountOk(c.servers[l], |c.servers| / 2, idx, |Ackers(c, l, idx)|);
    if |Ackers(c, l, idx)| > 0 {
      AckedIsHeld(c, term, l, idx);
    }
    CommitKeepsCount(c.servers[l], |c.servers| / 2, idx, |Ackers(c, l, idx)|);
  }

  lemma StepKeepsCountsExact(c: Config, st: Step, term: int, l: int)
    requires Steady(c, st, term, l) && CountsExact(c, l)
    ensures CountsExact(Next(c, st), l)
  {
    if st.event.Commit? {
      LeaderCommitKeepsCounts(c, st, term, l);
    } else if st.event.AppendReplied? {
      ReplyKeepsCounts(c, st, term, l);
    } else {
      LeaderCountsUntouched(c, st, term, l);
      OtherStepKeepsCounts(c, st, l);
    }
  }

  lemma LeaderCountsUntouched(c: Config, st: Step, term: int, l: int)
    requires Steady(c, st, term, l) && !st.event.Commit? && !st.event.AppendReplied?
    ensures var s, t := c.servers[l], Next(c, st).servers[l];
      t.commitIdx == s.commitIdx && t.commitTracker == s.commitTracker && t.commitChnl == s.commitChnl
  {
    OnlyTheLeaderLeads(c, st, term, l);
    if st.at == l {
      OtherEventsApplyNothing(c.servers[l], l, st.event);
    }
  }

  // ---------------------------------------------------------------- whole runs

  lemma FreshCounts(n: nat, l: int)
    requires n >= 2 && 0 <= l < n
    ensures CountsExact(Init(n), l)
  {
    var c := Init(n);
    forall idx
      ensures CountOk(c.servers[l], n / 2, idx, |Ackers(c, l, idx)|)
    {
      assert Ackers(c, l, idx) == {};
    }
  }

  lemma RunStepKeepsCountsExact(n: nat, trace: seq<Config>, steps: seq<Step>, k: nat, term: int, l: int)
    requires CleanRun(n, trace, steps) && k < |steps| && SoleWinner(trace[k + 1], term, l)
    requires SoleWinner(trace[k], term, l) && CountsExact(trace[k], l)
    ensures CountsExact(trace[k + 1], l)
  {
    CleanStepsAreGood(n, trace, steps, k);
    TenureHolds(n, trace, steps, k, term, l);
    StepKeepsCountsExact(trace[k], steps[k], term, l);
  }

  lemma {:induction false} CountsExactHolds(n: nat, trace: seq<Config>, steps: seq<Step>, k: nat, term: int, l: int)
    requires n >= 2 && CleanRun(n, trace, steps) && k < |trace| && SoleWinner(trace[k], term, l)
    ensures CountsExact(trace[k], l)
    decreases k
  {
    if k == 0 {
      CleanRunKeepsLogInv(n, trace, steps, 0);
      FreshCounts(n, l);
    } else {
      RunHasSoleWinnerBefore(n, trace, steps, k - 1, term, l);
      CountsExactHolds(n, trace, steps, k - 1, term, l);
      RunStepKeepsCountsExact(n, trace, steps, k - 1, term, l);
    }
  }

  lemma RunHasSoleWinnerBefore(n: nat, trace: seq<Config>, steps: seq<Step>, k: nat, term: int, l: int)
    requires CleanRun(n, trace, steps) && k < |steps| && SoleWinner(trace[k + 1], term, l)
    ensures SoleWinner(trace[k], term, l)
  {
    CleanStepsAreGood(n, trace, steps, k);
    SoleWinnerBefore(trace[k], steps[k], term, l);
  }

  /** In every configuration of a single-leader tenure of two servers or more: an index that half
      the peers have acknowledged, and that no longer waits to be counted, is committed. */
  lemma CountedQuorumIsCommitted(
    n: nat, trace: seq<Config>, steps: seq<Step>, k: nat, term: int, l: int, idx: int)
    requires n >= 2 && CleanRun(n, trace, steps) && k < |trace| && SoleWinner(trace[k], term, l)
    requires |Ackers(trace[k], l, idx)| >= n / 2 && idx !in trace[k].servers[l].commitChnl
    ensures idx <= trace[k].servers[l].commitIdx
  {
    CountsExactHolds(n, trace, steps, k, term, l);
    CleanRunKeepsLogInv(n, trace, steps, k);
    var s := trace[k].servers[l];
    assert idx !in multiset(s.commitChnl);
    assert CountOk(s, n / 2, idx, |Ackers(trace[k], l, idx)|);
  }

  /** Once the leader has counted everything it was told, an index is committed if and only if half
      the peers have acknowledged it or one past it. */
  lemma CommittedExactlyWithQuorum(
    n: nat, trace: seq<Config>, steps: seq<Step>, k: nat, term: int, l: int, idx: int)
    requires n >= 2 && CleanRun(n, trace, steps) && k < |trace| && SoleWinner(trace[k], term, l)
    requires trace[k].servers[l].commitChnl == [] && idx >= 1
    ensures idx <= trace[k].servers[l].commitIdx <==>
            exists i :: i >= idx && |Ackers(trace[k], l, i)| >= n / 2
  {
    CleanRunKeepsLogInv(n, trace, steps, k);
    TenureHolds(n, trace, steps, k, term, l);
    if i :| i >= idx && |Ackers(trace[k], l, i)| >= n / 2 {
      CountedQuorumIsCommitted(n, trace, steps, k, term, l, i);
    }
  }
}
