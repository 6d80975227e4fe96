/** What one HeartBeat does to a follower whose log matches the leader's in the sense of Log
    Matching (section 5.3 of the extended Raft paper). */
module HeartBeatMerge {
  import opened RaftTypes
  import opened RaftHandlers
  import LogLemmas
  import ApplyStream

  /** Wherever the logs carry the same term they agree up to there. */
  ghost predicate Matching(a: seq<Entry>, b: seq<Entry>) {
    forall i :: 0 <= i < |a| && i < |b| && a[i].term == b[i].term ==> a[..i + 1] == b[..i + 1]
  }

  /** PrevLog and Entries are a stretch of the leader's log. */
  predicate Segment(leader: seq<Entry>, prev: Entry, entries: seq<Entry>) {
    && 0 <= prev.index < |leader| && leader[prev.index] == prev
    && prev.index + 1 + |entries| <= |leader|
    && entries == leader[prev.index + 1..prev.index + 1 + |entries|]
  }

  /** One past the last position the message speaks about. */
  function Reach(args: AppendArgs): int {
    args.prevLog.index + 1 + |args.entries|
  }

  /** The intended result: the follower's own log if it already agrees with the leader's first
      q entries, and those entries otherwise. */
  function Reconciled(log: seq<Entry>, leader: seq<Entry>, q: nat): (r: seq<Entry>)
    requires q <= |leader|
    ensures leader[..q] <= r
  {
    if leader[..q] <= log then log else leader[..q]
  }

  lemma SegmentIsContiguous(leader: seq<Entry>, args: AppendArgs)
    requires GoodLog(leader) && Segment(leader, args.prevLog, args.entries)
    ensures Contiguous(args.entries, args.prevLog.index + 1)
  {
  }

  /** At the first position where the follower's log ends or differs, the rest of the message replaces its tail. */
  lemma MergeReplacesTail(log: seq<Entry>, leader: seq<Entry>, args: AppendArgs, i: nat)
    requires GoodLog(log) && GoodLog(leader) && Segment(leader, args.prevLog, args.entries) && i < |args.entries|
    requires leader[..args.prevLog.index + 1 + i] <= log
    requires forall e :: e in args.entries ==> e.index >= 0
    requires var at := args.prevLog.index + 1 + i; at < |log| ==> log[at].term != leader[at].term
    ensures Merge(log, args.entries, i, Last(log).index) == Some(Reconciled(log, leader, Reach(args)))
  {
    var at := args.prevLog.index + 1 + i;
    assert args.entries[i] == leader[at];
    assert leader[..at] + args.entries[i..] == leader[..Reach(args)];
    assert log[..at] == leader[..at];
    assert at == |log| ==> log == leader[..at];
    assert at < |log| ==> leader[..Reach(args)][at] != log[at];
  }

  /** The merge loop computes the reconciled log. */
  lemma {:induction false} MergeReconciles(log: seq<Entry>, leader: seq<Entry>, args: AppendArgs, i: nat)
    requires GoodLog(log) && GoodLog(leader) && Matching(log, leader)
    requires Segment(leader, args.prevLog, args.entries) && i <= |args.entries|
    requires leader[..args.prevLog.index + 1 + i] <= log
    requires forall e :: e in args.entries ==> e.index >= 0
    ensures Merge(log, args.entries, i, Last(log).index) == Some(Reconciled(log, leader, Reach(args)))
    decreases |args.entries| - i
  {
    var at := args.prevLog.index + 1 + i;
    if i == |args.entries| {
    } else {
      assert args.entries[i] == leader[at];
      if at < |log| && log[at].term == leader[at].term {
        assert log[..at + 1] == leader[..at + 1];
        MergeReconciles(log, leader, args, i + 1);
      } else {
        MergeReplacesTail(log, leader, args, i);
      }
    }
  }

  /** No entry that agrees with the leader's at its position is lost or moved. */
  lemma ReconciledKeepsAgreement(log: seq<Entry>, leader: seq<Entry>, q: nat, i: nat)
    requires Matching(log, leader) && q <= |leader|
    requires i < |log| && i < |leader| && log[i] == leader[i]
    ensures i < |Reconciled(log, leader, q)| && Reconciled(log, leader, q)[i] == log[i]
  {
    if i >= q {
      assert log[..i + 1][..q] == leader[..i + 1][..q];
      assert log[..q] == leader[..q];
    }
  }

  /** The reconciled log still matches the leader's. */
  lemma ReconciledMatches(log: seq<Entry>, leader: seq<Entry>, q: nat)
    requires Matching(log, leader) && q <= |leader|
    ensures Matching(Reconciled(log, leader, q), leader)
  {
    if !(leader[..q] <= log) {
      assert Reconciled(log, leader, q) == leader[..q];
    }
  }

  /** A heartbeat of a current term with a segment of a matching leader log. Success happens
      exactly when the follower agrees with the leader through PrevLog, and then leaves the
      reconciled log; a rejection leaves a non-empty prefix that ends before PrevLog. */
  lemma HeartBeatReconciles(s: Server, leader: seq<Entry>, args: AppendArgs)
    requires GoodLog(s.logs) && GoodLog(leader) && Matching(s.logs, leader) && s.lastApplied >= 0
    requires Segment(leader, args.prevLog, args.entries) && args.term >= s.currentTerm
    ensures HeartBeatSafe(s, args)
    ensures var (t, reply) := OnHeartBeat(s, args);
            && (reply.success <==> leader[..args.prevLog.index + 1] <= s.logs)
            && t.currentTerm == args.term && t.logs != []
            && reply.term == s.currentTerm && reply.lastEntry == Last(t.logs)
            && t.logs == (if reply.success then Reconciled(s.logs, leader, Reach(args)) else s.logs[..|t.logs|])
            && (!reply.success ==>
                  && t.logs <= s.logs && |t.logs| <= args.prevLog.index
                  && t.applied == s.applied && t.lastApplied == s.lastApplied)
            && (t.logidx == |t.logs| - 1 || (t.logidx == s.logidx && t.logs == s.logs))
  {
    SegmentIsContiguous(leader, args);
    LogLemmas.ContiguousHeartBeatIsSafe(s, args);
    var p := args.prevLog.index;
    if p < |s.logs| && s.logs[p].term == leader[p].term {
      assert leader[..p + 1] <= s.logs by { assert s.logs[..p + 1] == leader[..p + 1]; }
      MergeReconciles(s.logs, leader, args, 0);
    } else {
      assert p < |s.logs| ==> leader[..p + 1][p] != s.logs[p];
    }
  }

  /** What t applied beyond `applied` are the leader's entries right after position lastApplied. */
  predicate AppliesFrom(leader: seq<Entry>, lastApplied: int, applied: seq<ApplyMsg>, t: Server)
    requires lastApplied >= 0
  {
    && lastApplied <= t.lastApplied
    && (t.lastApplied == lastApplied ==> t.applied == applied)
    && (t.lastApplied > lastApplied ==>
          && t.lastApplied < |leader|
          && t.applied == applied + Messages(leader[lastApplied + 1..t.lastApplied + 1]))
  }

  /** A follower whose log agrees with the leader's first q entries applies only the leader's
      entries when it commits below q. */
  lemma FollowerAppliesLeaderEntries(s: Server, leader: seq<Entry>, q: nat, leaderCommitIdx: int)
    requires GoodLog(s.logs) && s.lastApplied >= 0
    requires q <= |leader| && leader[..q] <= s.logs && Min(Last(s.logs).index, leaderCommitIdx) < q
    ensures FollowerApplySafe(s.logs, s.commitIdx, s.lastApplied, leaderCommitIdx)
    ensures AppliesFrom(leader, s.lastApplied, s.applied, FollowerApply(s, leaderCommitIdx))
  {
    if Advances(s.logs, s.commitIdx, s.lastApplied, leaderCommitIdx) {
      var c := Min(Last(s.logs).index, leaderCommitIdx);
      assert s.logs[..q][s.lastApplied + 1..c + 1] == leader[..q][s.lastApplied + 1..c + 1];
      assert s.logs[s.lastApplied + 1..c + 1] == leader[s.lastApplied + 1..c + 1];
    }
  }

  /** The entries newly applied by an accepted heartbeat are the leader's, provided its commit
      index lies within the segment it sent. */
  lemma AppliesOnlyLeaderEntries(s: Server, leader: seq<Entry>, args: AppendArgs)
    requires GoodLog(s.logs) && GoodLog(leader) && Matching(s.logs, leader) && s.lastApplied >= 0
    requires Segment(leader, args.prevLog, args.entries) && args.term >= s.currentTerm
    requires args.leaderCommitIdx < Reach(args)
    ensures HeartBeatSafe(s, args)
    ensures AppliesFrom(leader, s.lastApplied, s.applied, OnHeartBeat(s, args).0)
  {
    SegmentIsContiguous(leader, args);
    LogLemmas.ContiguousHeartBeatIsSafe(s, args);
    var p := args.prevLog.index;
    if p < |s.logs| && s.logs[p].term == leader[p].term {
      assert s.logs[..p + 1] == leader[..p + 1];
      MergeReconciles(s.logs, leader, args, 0);
      ReconciledIsGood(s.logs, leader, Reach(args));
      AcceptedLogIsSafe(s, leader, args, Reconciled(s.logs, leader, Reach(args)), Reach(args));
    } else {
      InconsistentHeartBeatAppliesNothing(s, args);
    }
  }

  lemma InconsistentHeartBeatAppliesNothing(s: Server, args: AppendArgs)
    requires HeartBeatSafe(s, args) && !Consistent(s.logs, args.prevLog)
    ensures var t := OnHeartBeat(s, args).0; t.applied == s.applied && t.lastApplied == s.lastApplied
  {
  }

  lemma ConsistentHeartBeatApplies(s: Server, l: seq<Entry>, args: AppendArgs)
    requires HeartBeatSafe(s, args) && args.term >= s.currentTerm && Consistent(s.logs, args.prevLog)
    requires Merge(s.logs, args.entries, 0, Last(s.logs).index) == Some(l)
    ensures OnHeartBeat(s, args).0 == FollowerApply(
      s.(currentTerm := args.term, isLeader := false, logs := l, logidx := Last(l).index), args.leaderCommitIdx)
  {
  }

  // ---------------------------------------------------------------- the proviso is exact

  /** A follower the message may reach: its log matches the leader's and its term is not past
      the message's. */
  ghost predicate MayReceive(s: Server, leader: seq<Entry>, args: AppendArgs) {
    && GoodLog(s.logs) && Matching(s.logs, leader) && s.lastApplied >= 0
    && args.term >= s.currentTerm
  }

  predicate AcceptedSafely(s: Server, leader: seq<Entry>, args: AppendArgs)
    requires s.lastApplied >= 0
  {
    HeartBeatSafe(s, args) && AppliesFrom(leader, s.lastApplied, s.applied, OnHeartBeat(s, args).0)
  }

  /** An entry of the term for position m that the leader does not have there. */
  function Stale(leader: seq<Entry>, m: nat, term: int): Entry {
    Entry(m, term, if m < |leader| && leader[m].cmd == Nil then Other("stale") else Nil)
  }

  /** A follower in term `current` that has the leader's first m entries and has applied them, and
      has one stale entry after them. */
  function WithStaleTail(leader: seq<Entry>, m: nat, term: int, current: int): Server
    requires 1 <= m <= |leader|
  {
    Fresh(3).(currentTerm := current, logs := leader[..m] + [Stale(leader, m, term)], logidx := m,
              commitIdx := m - 1, lastApplied := m - 1, applied := Messages(leader[1..m]))
  }

  lemma StaleTailMayReceive(leader: seq<Entry>, m: nat, term: int, args: AppendArgs)
    requires GoodLog(leader) && 1 <= m <= |leader| && (m < |leader| ==> leader[m].term != term)
    ensures var s := WithStaleTail(leader, m, term, args.term);
      MayReceive(s, leader, args) && ApplyStream.GaplessStream(s) && leader[..m] <= s.logs && |s.logs| == m + 1
  {
    var log := leader[..m] + [Stale(leader, m, term)];
    forall i | 0 <= i < |log| && i < |leader| && log[i].term == leader[i].term
      ensures log[..i + 1] == leader[..i + 1]
    {
      assert i < m;
    }
  }

  /** Committing the one entry after what is applied applies it. */
  lemma AppliesTail(s: Server, leaderCommitIdx: int)
    requires ApplyStream.GaplessStream(s) && s.commitIdx == |s.logs| - 2 && leaderCommitIdx >= |s.logs| - 1
    ensures FollowerApplySafe(s.logs, s.commitIdx, s.lastApplied, leaderCommitIdx)
    ensures FollowerApply(s, leaderCommitIdx).applied == s.applied + Messages([Last(s.logs)])
    ensures FollowerApply(s, leaderCommitIdx).lastApplied == s.lastApplied + 1
  {
    var c := |s.logs| - 1;
    assert Min(Last(s.logs).index, leaderCommitIdx) == c;
    assert s.logs[c..c + 1] == [Last(s.logs)];
  }

  /** A commit index past what the follower shares with the leader makes it apply its stale entry. */
  lemma StaleTailIsApplied(leader: seq<Entry>, args: AppendArgs, m: nat, term: int)
    requires GoodLog(leader) && Segment(leader, args.prevLog, args.entries)
    requires Reach(args) <= m <= |leader| && args.leaderCommitIdx >= m && (m < |leader| ==> leader[m].term != term)
    ensures var s := WithStaleTail(leader, m, term, args.term);
      && MayReceive(s, leader, args) && ApplyStream.GaplessStream(s) && HeartBeatSafe(s, args)
      && OnHeartBeat(s, args).0.applied == s.applied + Messages([Stale(leader, m, term)])
      && !AcceptedSafely(s, leader, args)
  {
    var s := WithStaleTail(leader, m, term, args.term);
    StaleTailMayReceive(leader, m, term, args);
    assert leader[..Reach(args)] <= s.logs;
    SegmentIsContiguous(leader, args);
    LogLemmas.ContiguousHeartBeatIsSafe(s, args);
    MergeReconciles(s.logs, leader, args, 0);
    ConsistentHeartBeatApplies(s, s.logs, args);
    AppliesTail(s.(isLeader := false), args.leaderCommitIdx);
    StaleIsNotLeaders(s, leader, args, term);
  }

  lemma StaleIsNotLeaders(s: Server, leader: seq<Entry>, args: AppendArgs, term: int)
    requires HeartBeatSafe(s, args) && 1 <= s.lastApplied + 1 <= |leader|
    requires OnHeartBeat(s, args).0.lastApplied == s.lastApplied + 1
    requires OnHeartBeat(s, args).0.applied == s.applied + Messages([Stale(leader, s.lastApplied + 1, term)])
    ensures !AcceptedSafely(s, leader, args)
  {
    var m := s.lastApplied + 1;
    if m < |leader| {
      assert leader[m..m + 1] == [leader[m]];
      assert (s.applied + Messages([Stale(leader, m, term)]))[|s.applied|] == ApplyMsg(m, Stale(leader, m, term).cmd);
      assert (s.applied + Messages([leader[m]]))[|s.applied|] == ApplyMsg(leader[m].index, leader[m].cmd);
    }
  }

  /** Exactly when the commit index lies within the segment does every follower with a matching
      log apply nothing but the leader's entries. */
  lemma AppliesOnlyLeaderEntriesExactly(leader: seq<Entry>, args: AppendArgs)
    requires GoodLog(leader) && Segment(leader, args.prevLog, args.entries)
    ensures (forall s :: MayReceive(s, leader, args) ==> AcceptedSafely(s, leader, args))
            <==> args.leaderCommitIdx < Reach(args)
  {
    var q := Reach(args);
    if args.leaderCommitIdx < q {
      forall s | MayReceive(s, leader, args)
        ensures AcceptedSafely(s, leader, args)
      {
        AppliesOnlyLeaderEntries(s, leader, args);
      }
    } else {
      StaleTailIsApplied(leader, args, q, if q < |leader| then leader[q].term + 1 else 0);
    }
  }

  // ---------------------------------------------------------------- followers whose terms rise

  /** Terms never fall along the log, and past the sentinel lie between 1 and `term`. */
  predicate Aged(log: seq<Entry>, term: int) {
    && (forall i, j :: 0 <= i < j < |log| ==> log[i].term <= log[j].term)
    && (forall i :: 1 <= i < |log| ==> 1 <= log[i].term <= term)
  }

  /** A follower whose log could have grown in its terms. */
  ghost predicate MayReceiveAged(s: Server, leader: seq<Entry>, args: AppendArgs) {
    MayReceive(s, leader, args) && Aged(s.logs, s.currentTerm)
  }

  /** No entry past the segment can be of a term other than the message's. */
  predicate OneTermLeft(leader: seq<Entry>, args: AppendArgs)
    requires Segment(leader, args.prevLog, args.entries)
  {
    leader[Reach(args) - 1].term == args.term || args.term == 1
  }

  /** A follower that agrees through the segment then agrees as far as both logs go. */
  lemma OneTermMeansAgreement(log: seq<Entry>, leader: seq<Entry>, args: AppendArgs, current: int, i: nat)
    requires GoodLog(log) && Matching(log, leader) && Aged(log, current) && current <= args.term
    requires GoodLog(leader) && Aged(leader, args.term) && Segment(leader, args.prevLog, args.entries)
    requires OneTermLeft(leader, args) && leader[..Reach(args)] <= log
    requires Reach(args) <= i < |log| && i < |leader|
    ensures log[..i + 1] == leader[..i + 1]
  {
    var q := Reach(args);
    assert log[q - 1] == leader[..q][q - 1] == leader[q - 1];
    assert log[q - 1].term <= log[i].term && leader[q - 1].term <= leader[i].term;
    assert log[i].term == args.term == leader[i].term;
  }

  /** What the message leaves is the leader's as far as the commit index reaches. */
  lemma AgedLogAgrees(log: seq<Entry>, leader: seq<Entry>, args: AppendArgs, current: int, c: int)
    requires GoodLog(log) && Matching(log, leader) && Aged(log, current) && current <= args.term
    requires GoodLog(leader) && Aged(leader, args.term) && Segment(leader, args.prevLog, args.entries)
    requires OneTermLeft(leader, args) && 0 <= c < |leader| && c < |Reconciled(log, leader, Reach(args))|
    ensures leader[..c + 1] <= Reconciled(log, leader, Reach(args))
  {
    var q := Reach(args);
    if c >= q {
      OneTermMeansAgreement(log, leader, args, current, c);
    } else {
      assert leader[..q][..c + 1] == leader[..c + 1];
    }
  }

  lemma AcceptedLogIsSafe(s: Server, leader: seq<Entry>, args: AppendArgs, l: seq<Entry>, q: nat)
    requires HeartBeatSafe(s, args) && args.term >= s.currentTerm && Consistent(s.logs, args.prevLog)
    requires Merge(s.logs, args.entries, 0, Last(s.logs).index) == Some(l) && GoodLog(l) && s.lastApplied >= 0
    requires q <= |leader| && leader[..q] <= l && Min(Last(l).index, args.leaderCommitIdx) < q
    ensures AcceptedSafely(s, leader, args)
  {
    FollowerAppliesLeaderEntries(
      s.(currentTerm := args.term, isLeader := false, logs := l, logidx := Last(l).index),
      leader, q, args.leaderCommitIdx);
    ConsistentHeartBeatApplies(s, l, args);
  }

  lemma ReconciledIsGood(log: seq<Entry>, leader: seq<Entry>, q: nat)
    requires GoodLog(log) && GoodLog(leader) && 1 <= q <= |leader|
    ensures GoodLog(Reconciled(log, leader, q))
  {
    assert leader[..q][0] == SENTINEL;
  }

  lemma ConsistentAgedFollowerIsSafe(s: Server, leader: seq<Entry>, args: AppendArgs)
    requires GoodLog(leader) && Aged(leader, args.term) && Segment(leader, args.prevLog, args.entries)
    requires MayReceiveAged(s, leader, args) && HeartBeatSafe(s, args) && Consistent(s.logs, args.prevLog)
    requires Merge(s.logs, args.entries, 0, Last(s.logs).index) == Some(Reconciled(s.logs, leader, Reach(args)))
    requires 0 <= args.leaderCommitIdx < |leader| && OneTermLeft(leader, args)
    ensures AcceptedSafely(s, leader, args)
  {
    ReconciledIsGood(s.logs, leader, Reach(args));
    var l := Reconciled(s.logs, leader, Reach(args));
    var c := Min(Last(l).index, args.leaderCommitIdx);
    AgedLogAgrees(s.logs, leader, args, s.currentTerm, c);
    AcceptedLogIsSafe(s, leader, args, l, c + 1);
  }

  lemma AgedFollowerIsSafe(s: Server, leader: seq<Entry>, args: AppendArgs)
    requires GoodLog(leader) && Aged(leader, args.term) && Segment(leader, args.prevLog, args.entries)
    requires MayReceiveAged(s, leader, args)
    requires Reach(args) <= args.leaderCommitIdx < |leader| && OneTermLeft(leader, args)
    ensures AcceptedSafely(s, leader, args)
  {
    SegmentIsContiguous(leader, args);
    LogLemmas.ContiguousHeartBeatIsSafe(s, args);
    var p := args.prevLog.index;
    if p < |s.logs| && s.logs[p].term == leader[p].term {
      assert s.logs[..p + 1] == leader[..p + 1];
      MergeReconciles(s.logs, leader, args, 0);
      ConsistentAgedFollowerIsSafe(s, leader, args);
    } else {
      InconsistentHeartBeatAppliesNothing(s, args);
    }
  }

  /** A term that an entry after the segment may have and the leader's does not. */
  function OtherTerm(leader: seq<Entry>, args: AppendArgs): int
    requires Segment(leader, args.prevLog, args.entries)
  {
    var q := Reach(args);
    if q < |leader| && leader[q].term == args.term then (if leader[q - 1].term < 1 then 1 else leader[q - 1].term)
    else args.term
  }

  lemma StaleTailIsAged(leader: seq<Entry>, m: nat, term: int, current: int)
    requires GoodLog(leader) && Aged(leader, current) && 1 <= m <= |leader|
    requires 1 <= term <= current && leader[m - 1].term <= term
    ensures Aged(leader[..m] + [Stale(leader, m, term)], current)
  {
    var log := leader[..m] + [Stale(leader, m, term)];
    forall i, j | 0 <= i < j < |log|
      ensures log[i].term <= log[j].term
    {
      assert j == m ==> log[i].term <= leader[m - 1].term;
    }
  }

  /** For followers whose terms rise the condition is wider: past the segment the commit index may
      still go, within the leader's log, when only the message's own term is left for what
      follows. */
  lemma AgedFollowersApplyOnlyLeaderEntriesExactly(leader: seq<Entry>, args: AppendArgs)
    requires GoodLog(leader) && Aged(leader, args.term) && args.term >= 1
    requires Segment(leader, args.prevLog, args.entries)
    ensures (forall s :: MayReceiveAged(s, leader, args) ==> AcceptedSafely(s, leader, args))
            <==> args.leaderCommitIdx < Reach(args) ||
                 (args.leaderCommitIdx < |leader| && OneTermLeft(leader, args))
  {
    var q := Reach(args);
    if args.leaderCommitIdx < q {
      AppliesOnlyLeaderEntriesExactly(leader, args);
    } else if !OneTermLeft(leader, args) {
      StaleTailIsAged(leader, q, OtherTerm(leader, args), args.term);
      StaleTailIsApplied(leader, args, q, OtherTerm(leader, args));
    } else if args.leaderCommitIdx >= |leader| {
      StaleTailIsAged(leader, |leader|, args.term, args.term);
      StaleTailIsApplied(leader, args, |leader|, args.term);
    } else {
      forall s | MayReceiveAged(s, leader, args)
        ensures AcceptedSafely(s, leader, args)
      {
        AgedFollowerIsSafe(s, leader, args);
      }
    }
  }
}
