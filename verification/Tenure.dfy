/** Safety of a whole single-leader tenure: a clean run in which at most one election, of
    server `l` in term `term`, has been won so far. */
module Tenure {
  import opened RaftTypes
  import opened RaftHandlers
  import opened RaftSteps
  import LogLemmas
  import opened HeartBeatMerge
  import opened ApplyStream
  import opened Cluster
  import opened ElectionSafety
  import opened LogMatching

  ghost predicate SoleWinner(c: Config, term: int, l: int) {
    c.wins <= {Win(term, l)} && 0 <= l < |c.servers|
  }

  /** The log of the tenure: the sole winner's, or the empty log before the win. */
  function CommonLog(c: Config, term: int): seq<Entry> {
    if term in c.leaderLogs then c.leaderLogs[term] else [SENTINEL]
  }

  /** The peers that acknowledged index idx to the leader. */
  function Ackers(c: Config, l: int, idx: int): set<int> {
    set p | 0 <= p < |c.servers| && Ack(l, p, idx) in c.acks
  }

  /** A server has applied its log exactly up to its commit index, which is not past `commit`. */
  ghost predicate AppliedOk(s: Server, commit: int) {
    0 <= s.commitIdx <= commit && s.commitIdx < |s.logs| && s.applied == Messages(s.logs[1..s.commitIdx + 1])
  }

  /** Commit indices waiting to be sent by the leader are not past its own. */
  ghost predicate OutgoingOk(s: Server) {
    && (forall p, k :: 0 <= p < |s.rdy| && 0 <= k < |s.rdy[p]| ==> s.rdy[p][k].leaderCommitIdx <= s.commitIdx)
    && (forall term :: term in s.tallies ==> s.tallies[term].commitIdx <= s.commitIdx)
  }

  /** Appends come from the leader and carry no commit index past its own; a positive answer
      names an index the follower holds. */
  ghost predicate MessageOk(c: Config, term: int, l: int, m: Message)
    requires 0 <= l < |c.servers|
  {
    match m
    case AppendRequest(src, dst, append) => src == l && append.leaderCommitIdx <= c.servers[l].commitIdx
    case AppendResponse(src, dst, append, reply) =>
      && dst == l && 0 <= src < |c.servers| && src != l && Win(term, l) in c.wins
      && (reply.success ==> reply.lastEntry.index < |c.servers[src].logs|)
    case _ => true
  }

  ghost predicate TrafficOk(c: Config, term: int, l: int)
    requires 0 <= l < |c.servers|
  {
    forall m :: m in c.net ==> MessageOk(c, term, l, m)
  }

  /** An acknowledgement counted by the leader is covered by matchIndex and by the follower's log. */
  ghost predicate AcksOk(c: Config, term: int, l: int)
    requires 0 <= l < |c.servers|
  {
    forall a :: a in c.acks ==>
      && Win(term, l) in c.wins && a.leader == l && 0 <= a.peer < |c.servers| && a.peer != l
      && a.peer < |c.servers[l].matchIndex| && a.idx <= c.servers[l].matchIndex[a.peer]
      && a.idx < |c.servers[a.peer].logs|
  }

  /** What the leader has counted or will count for an index. */
  function Pending(s: Server, idx: int): int {
    Tracked(s.commitTracker, idx) + multiset(s.commitChnl)[idx]
  }

  /** What the leader has counted for an index, or is about to count, never exceeds the number of
      distinct followers that acknowledged it. */
  ghost predicate CountsOk(c: Config, l: int)
    requires 0 <= l < |c.servers|
  {
    forall idx: int ::
      Pending(c.servers[l], idx) <= |Ackers(c, l, idx)|
  }

  ghost predicate CommitOk(c: Config, l: int)
    requires 0 <= l < |c.servers|
  {
    var s := c.servers[l];
    s.commitIdx == 0 || |Ackers(c, l, s.commitIdx)| >= |c.servers| / 2
  }

  ghost predicate TenureInv(c: Config, term: int, l: int) {
    && SoleWinner(c, term, l)
    && c.servers[l].logs == CommonLog(c, term)
    && OutgoingOk(c.servers[l]) && TrafficOk(c, term, l)
    && AcksOk(c, term, l) && CountsOk(c, l) && CommitOk(c, l)
    && (forall i :: 0 <= i < |c.servers| && i != l ==> c.servers[i].commitChnl == [])
    && (forall i :: 0 <= i < |c.servers| ==> AppliedOk(c.servers[i], c.servers[l].commitIdx))
  }

  // ---------------------------------------------------------------- consequences of a sole winner

  /** With one winner, a pinned log is a prefix of the winner's. */
  lemma SoleWinnerPinsLogs(c: Config, term: int, l: int, i: int)
    requires LogInv(c) && SoleWinner(c, term, l) && 0 <= i < |c.servers|
    ensures c.servers[i].logs <= CommonLog(c, term)
    ensures Win(term, l) in c.wins <==> term in c.leaderLogs
    ensures GoodLog(CommonLog(c, term))
  {
    var log := c.servers[i].logs;
    assert LogServerOk(c.leaderLogs, c.wins, i, c.servers[i]);
    forall t | t in c.leaderLogs
      ensures t == term && Win(term, l) in c.wins
    {
      var w :| w in c.wins && w.term == t;
    }
    if |log| > 1 {
      var last := |log| - 1;
      assert log[..last + 1] == c.leaderLogs[log[last].term][..last + 1];
      assert log == log[..last + 1];
    } else {
      assert log == [SENTINEL];
      assert term in c.leaderLogs ==> LogOk(c.leaderLogs, c.leaderLogs[term]);
    }
  }

  ghost predicate Steady(c: Config, st: Step, term: int, l: int) {
    Good(c, st) && TenureInv(c, term, l) && SoleWinner(Next(c, st), term, l)
  }

  /** Only the leader batches or wins, and no heartbeat reaches it. */
  lemma OnlyTheLeaderLeads(c: Config, st: Step, term: int, l: int)
    requires Steady(c, st, term, l)
    ensures st.event.Batch? ==> st.at == l && c.servers[l].currentTerm == term
    ensures Winning(c, st) ==> st.at == l && st.event.term == term && Win(term, l) !in c.wins
    ensures c.servers[st.at].isLeader ==> st.at == l && Win(term, l) in c.wins
    ensures st.event.HeartBeat? ==> st.src == l && st.at != l && st.event.append.term == term
    ensures st.event.Commit? || st.event.AppendReplied? ==> st.at == l
  {
    if Winning(c, st) {
      WinIsNew(c, st);
      assert Win(st.event.term, st.at) in Next(c, st).wins;
    }
    if st.event.HeartBeat? {
      HeartBeatIsForeign(c, st);
    }
  }

  // ---------------------------------------------------------------- the follower

  lemma PrefixesMatch(log: seq<Entry>, leader: seq<Entry>)
    requires log <= leader
    ensures Matching(log, leader)
  {
  }

  /** A heartbeat of the tenure only extends the follower's log along the leader's, answers with
      an index the follower holds, and applies exactly up to its new commit index. */
  lemma HeartBeatExtends(s: Server, leader: seq<Entry>, args: AppendArgs, commit: int)
    requires GaplessStream(s) && GoodLog(leader) && s.logs <= leader && Segment(leader, args.prevLog, args.entries)
    requires AppliedOk(s, commit) && args.leaderCommitIdx <= commit
    ensures HeartBeatSafe(s, args)
    ensures s.logs <= OnHeartBeat(s, args).0.logs
    ensures AppliedOk(OnHeartBeat(s, args).0, commit)
    ensures OnHeartBeat(s, args).1.success ==> OnHeartBeat(s, args).1.lastEntry.index < |OnHeartBeat(s, args).0.logs|
  {
    SegmentIsContiguous(leader, args);
    LogLemmas.ContiguousHeartBeatIsSafe(s, args);
    if args.term >= s.currentTerm {
      if args.prevLog.index < |s.logs| {
        PrefixesMatch(s.logs, leader);
        MergeReconciles(s.logs, leader, args, 0);
        ConsistentHeartBeatExtends(s, Reconciled(s.logs, leader, Reach(args)), args, commit);
      } else {
        DistantHeartBeatIsRejected(s, args);
      }
    }
  }

  lemma DistantHeartBeatIsRejected(s: Server, args: AppendArgs)
    requires HeartBeatSafe(s, args) && GoodLog(s.logs)
    requires args.term >= s.currentTerm && args.prevLog.index >= |s.logs|
    ensures OnHeartBeat(s, args) == (s.(currentTerm := args.term, isLeader := false),
                                     AppendReply(s.currentTerm, false, Last(s.logs)))
  {
  }

  lemma ConsistentHeartBeatExtends(s: Server, l: seq<Entry>, args: AppendArgs, commit: int)
    requires GaplessStream(s) && HeartBeatSafe(s, args) && GoodLog(l) && s.logs <= l
    requires args.term >= s.currentTerm && Consistent(s.logs, args.prevLog)
    requires Merge(s.logs, args.entries, 0, Last(s.logs).index) == Some(l)
    requires AppliedOk(s, commit) && args.leaderCommitIdx <= commit
    ensures OnHeartBeat(s, args).0.logs == l && AppliedOk(OnHeartBeat(s, args).0, commit)
    ensures OnHeartBeat(s, args).1.lastEntry == Last(l)
  {
    ExtendedApplied(s.(currentTerm := args.term, isLeader := false, logidx := Last(l).index),
                    l, args.leaderCommitIdx, commit);
  }

  lemma ExtendedApplied(s: Server, l: seq<Entry>, leaderCommitIdx: int, commit: int)
    requires GaplessStream(s) && AppliedOk(s, commit) && leaderCommitIdx <= commit
    requires s.logs <= l && GoodLog(l)
    ensures FollowerApplySafe(l, s.commitIdx, s.lastApplied, leaderCommitIdx)
    ensures AppliedOk(FollowerApply(s.(logs := l), leaderCommitIdx), commit)
  {
    assert s.logs[1..s.commitIdx + 1] == l[1..s.commitIdx + 1];
    if Advances(l, s.commitIdx, s.lastApplied, leaderCommitIdx) {
      MessagesOfAdjacent(l, s.commitIdx + 1, Min(Last(l).index, leaderCommitIdx) + 1);
    }
  }

  lemma MessagesOfAdjacent(l: seq<Entry>, mid: int, end: int)
    requires 1 <= mid <= end <= |l|
    ensures Messages(l[1..mid]) + Messages(l[mid..end]) == Messages(l[1..end])
  {
    assert l[1..mid] + l[mid..end] == l[1..end];
  }

  // ---------------------------------------------------------------- one step

  lemma StepKeepsLeaderLog(c: Config, st: Step, term: int, l: int)
    requires Steady(c, st, term, l)
    ensures Next(c, st).servers[l].logs == CommonLog(Next(c, st), term)
    ensures c.servers[l].logs <= Next(c, st).servers[l].logs
  {
    OnlyTheLeaderLeads(c, st, term, l);
    SoleWinnerPinsLogs(c, term, l, l);
    LeaderEventKeepsLog(c, st, term, l);
  }

  /** Apart from batches, no event changes the leader's log. */
  lemma LeaderEventKeepsLog(c: Config, st: Step, term: int, l: int)
    requires Enabled(c, st) && 0 <= l < |c.servers| && (st.event.HeartBeat? ==> st.at != l)
    ensures !st.event.Batch? ==> Next(c, st).servers[l].logs == c.servers[l].logs
    ensures st.event.Batch? ==> c.servers[l].logs <= Next(c, st).servers[l].logs
  {
  }

  /** Events other than a heartbeat and the commit updater apply nothing and never shorten the log. */
  lemma OtherEventsApplyNothing(s: Server, me: int, e: Event)
    requires CanHandle(s, e) && !e.HeartBeat? && !e.Commit?
    ensures var t := Handle(s, me, e);
            && t.commitIdx == s.commitIdx && t.applied == s.applied && s.logs <= t.logs
            && (!e.AppendReplied? ==> t.commitChnl == s.commitChnl)
            && t.commitTracker == s.commitTracker
  {
    match e
    case Batch => BatchAppliesNothing(s, me);
    case Count(term) => CountAppliesNothing(s, me, term);
    case AppendReplied(peer, sent, reply) => ReplyAppliesNothing(s, peer, sent, reply);
    case _ =>
  }

  lemma CountAppliesNothing(s: Server, me: int, term: int)
    requires CountSafe(s, term)
    ensures var t := OnCount(s, me, term);
            && t.commitIdx == s.commitIdx && t.applied == s.applied && t.logs == s.logs
            && t.commitChnl == s.commitChnl && t.commitTracker == s.commitTracker
  {
  }

  lemma ReplyAppliesNothing(s: Server, peer: int, sent: AppendArgs, reply: AppendReply)
    requires AppendReplySafe(s, peer, sent, reply)
    ensures var t := OnAppendReply(s, peer, sent, reply);
            && t.commitIdx == s.commitIdx && t.applied == s.applied
            && t.logs == s.logs && t.commitTracker == s.commitTracker
  {
  }

  lemma BatchAppliesNothing(s: Server, me: int)
    requires BatchSafe(s)
    ensures var t := OnBatch(s, me);
            && t.commitIdx == s.commitIdx && t.applied == s.applied && s.logs <= t.logs
            && t.commitChnl == s.commitChnl && t.commitTracker == s.commitTracker
  {
  }

  lemma AppliedStaysOk(s: Server, t: Server, commit: int, more: int)
    requires AppliedOk(s, commit) && commit <= more
    requires s.logs <= t.logs && t.commitIdx == s.commitIdx && t.applied == s.applied
    ensures AppliedOk(t, more)
  {
    assert s.logs[1..s.commitIdx + 1] == t.logs[1..s.commitIdx + 1];
  }

  lemma CommitApplies(s: Server)
    requires GaplessStream(s) && CommitSafe(s) && AppliedOk(s, s.commitIdx)
    ensures var t := OnCommit(s);
            t.logs == s.logs && t.commitIdx >= s.commitIdx && AppliedOk(t, t.commitIdx)
  {
    var newIdx := s.commitChnl[0];
    if s.commitIdx < newIdx < |s.logs| {
      MessagesOfAdjacent(s.logs, s.commitIdx + 1, newIdx + 1);
    }
  }

  /** No step shortens a log, lowers the leader's commit index or applies past it. */
  lemma StepKeepsApplied(c: Config, st: Step, term: int, l: int)
    requires Steady(c, st, term, l)
    ensures Next(c, st).servers[l].commitIdx >= c.servers[l].commitIdx
    ensures c.servers[st.at].logs <= Next(c, st).servers[st.at].logs
    ensures AppliedOk(Next(c, st).servers[st.at], Next(c, st).servers[l].commitIdx)
    ensures st.event.HeartBeat? && OnHeartBeat(c.servers[st.at], st.event.append).1.success ==>
      OnHeartBeat(c.servers[st.at], st.event.append).1.lastEntry.index < |Next(c, st).servers[st.at].logs|
  {
    var s, commit := c.servers[st.at], c.servers[l].commitIdx;
    OnlyTheLeaderLeads(c, st, term, l);
    assert AppliedOk(s, commit) && GaplessStream(s);
    if st.event.HeartBeat? {
      HeartBeatIsForeign(c, st);
      SoleWinnerPinsLogs(c, term, l, st.at);
      HeartBeatExtends(s, CommonLog(c, term), st.event.append, commit);
    } else if st.event.Commit? {
      CommitApplies(s);
    } else {
      OtherEventsApplyNothing(s, st.at, st.event);
      AppliedStaysOk(s, Handle(s, st.at, st.event), commit, commit);
    }
  }

  /** Nothing is lost from any log, and the leader's commit index never falls. */
  ghost predicate Progresses(c: Config, d: Config, l: int)
    requires 0 <= l < |c.servers|
  {
    && |d.servers| == |c.servers| && c.wins <= d.wins && c.acks <= d.acks
    && c.servers[l].commitIdx <= d.servers[l].commitIdx
    && forall i :: 0 <= i < |c.servers| ==> c.servers[i].logs <= d.servers[i].logs
  }

  lemma StepProgresses(c: Config, st: Step, term: int, l: int)
    requires Steady(c, st, term, l)
    ensures Progresses(c, Next(c, st), l)
  {
    StepKeepsApplied(c, st, term, l);
  }

  lemma StepKeepsAllApplied(c: Config, st: Step, term: int, l: int)
    requires Steady(c, st, term, l)
    ensures forall i :: 0 <= i < |c.servers| ==> AppliedOk(Next(c, st).servers[i], Next(c, st).servers[l].commitIdx)
  {
    StepKeepsApplied(c, st, term, l);
    forall i | 0 <= i < |c.servers|
      ensures AppliedOk(Next(c, st).servers[i], Next(c, st).servers[l].commitIdx)
    {
      if i != st.at {
        AppliedStaysOk(c.servers[i], c.servers[i], c.servers[l].commitIdx, Next(c, st).servers[l].commitIdx);
      }
    }
  }

  lemma StepKeepsChannelsEmpty(c: Config, st: Step, term: int, l: int)
    requires Steady(c, st, term, l)
    ensures forall i :: 0 <= i < |c.servers| && i != l ==> Next(c, st).servers[i].commitChnl == []
  {
    forall i | 0 <= i < |c.servers| && i != l
      ensures Next(c, st).servers[i].commitChnl == []
    {
      OtherChannelStaysEmpty(c, st, term, l, i);
    }
  }

  lemma OtherChannelStaysEmpty(c: Config, st: Step, term: int, l: int, i: int)
    requires Steady(c, st, term, l) && 0 <= i < |c.servers| && i != l
    ensures Next(c, st).servers[i].commitChnl == []
  {
    assert c.servers[i].commitChnl == [];
    if i == st.at {
      OnlyTheLeaderLeads(c, st, term, l);
      FollowerCommitsNothing(c.servers[i], i, st.event);
    }
  }

  lemma FollowerCommitsNothing(s: Server, me: int, e: Event)
    requires CanHandle(s, e) && !e.Commit? && !e.AppendReplied?
    ensures Handle(s, me, e).commitChnl == s.commitChnl
  {
    if e.HeartBeat? {
      HeartBeatLeavesQueues(s, e.append);
    } else {
      OtherEventsApplyNothing(s, me, e);
    }
  }

  lemma BatchKeepsOutgoing(s: Server, me: int)
    requires BatchSafe(s) && OutgoingOk(s)
    ensures OutgoingOk(OnBatch(s, me))
  {
  }

  lemma CountKeepsOutgoing(s: Server, me: int, term: int)
    requires CountSafe(s, term) && OutgoingOk(s)
    ensures OutgoingOk(OnCount(s, me, term))
  {
  }

  lemma ReplyKeepsOutgoing(s: Server, peer: int, sent: AppendArgs, reply: AppendReply)
    requires AppendReplySafe(s, peer, sent, reply) && OutgoingOk(s)
    ensures OutgoingOk(OnAppendReply(s, peer, sent, reply))
  {
  }

  lemma TickKeepsOutgoing(s: Server, me: int)
    requires s.logs != [] && OutgoingOk(s)
    ensures OutgoingOk(OnTick(s, me))
  {
  }

  lemma CommitKeepsOutgoing(s: Server)
    requires CommitSafe(s) && OutgoingOk(s)
    ensures OutgoingOk(OnCommit(s))
  {
  }

  /** What the leader queues carries at most its commit index. */
  lemma EventKeepsOutgoing(s: Server, me: int, e: Event)
    requires CanHandle(s, e) && !e.HeartBeat? && OutgoingOk(s)
    ensures OutgoingOk(Handle(s, me, e))
  {
    match e
    case AppendReplied(peer, sent, reply) => ReplyKeepsOutgoing(s, peer, sent, reply);
    case Batch => BatchKeepsOutgoing(s, me);
    case Count(term) => CountKeepsOutgoing(s, me, term);
    case Send(peer) => SendKeepsOutgoing(s, peer);
    case Tick => TickKeepsOutgoing(s, me);
    case Commit => CommitKeepsOutgoing(s);
    case _ =>
  }

  lemma SendKeepsOutgoing(s: Server, peer: int)
    requires SendSafe(s, peer) && OutgoingOk(s)
    ensures OutgoingOk(OnSend(s, peer).0)
    ensures OnSend(s, peer).1.Some? ==> OnSend(s, peer).1.value.leaderCommitIdx <= s.commitIdx
  {
    var t := OnSend(s, peer).0;
    forall p, k | 0 <= p < |t.rdy| && 0 <= k < |t.rdy[p]|
      ensures t.rdy[p][k].leaderCommitIdx <= s.commitIdx
    {
      assert t.rdy[p][k] == s.rdy[p][if p == peer then k + 1 else k];
    }
  }

  lemma SentMessageIsOk(c: Config, st: Step, term: int, l: int, m: Message)
    requires Steady(c, st, term, l) && m in Sends(c, st)
    ensures MessageOk(Next(c, st), term, l, m)
  {
    OnlyTheLeaderLeads(c, st, term, l);
    StepKeepsApplied(c, st, term, l);
    if m.AppendRequest? {
      SendKeepsOutgoing(c.servers[st.at], st.event.peer);
    } else if m.AppendResponse? {
      HeartBeatIsForeign(c, st);
    }
  }

  lemma MessageStaysOk(c: Config, d: Config, term: int, l: int, m: Message)
    requires 0 <= l < |c.servers| && MessageOk(c, term, l, m) && Progresses(c, d, l)
    ensures MessageOk(d, term, l, m)
  {
  }

  lemma StepKeepsTraffic(c: Config, st: Step, term: int, l: int)
    requires Steady(c, st, term, l)
    ensures TrafficOk(Next(c, st), term, l)
  {
    StepProgresses(c, st, term, l);
    forall m | m in Next(c, st).net
      ensures MessageOk(Next(c, st), term, l, m)
    {
      if m in c.net {
        MessageStaysOk(c, Next(c, st), term, l, m);
      } else {
        SentMessageIsOk(c, st, term, l, m);
      }
    }
  }

  // ---------------------------------------------------------------- counting acknowledgements

  lemma AcknowledgementRaisesMatchIndex(c: Config, st: Step, a: Ack)
    requires Enabled(c, st) && a in Acknowledges(c, st)
    ensures st.event.AppendReplied? && st.event.appendReply.success
    ensures a == Ack(st.at, st.event.peer, st.event.appendReply.lastEntry.index)
    ensures 0 <= a.peer < |c.servers[st.at].matchIndex| && a.idx > c.servers[st.at].matchIndex[a.peer]
    ensures AppendResponse(a.peer, st.at, st.event.sent, st.event.appendReply) in c.net
  {
  }

  /** A reply that moves matchIndex is the peer's first acknowledgement of that index. */
  lemma AcknowledgementIsFresh(c: Config, st: Step, term: int, l: int, a: Ack)
    requires Steady(c, st, term, l) && a in Acknowledges(c, st)
    ensures a !in c.acks && a.leader == l && 0 <= a.peer < |c.servers| && a.peer != l
    ensures Win(term, l) in c.wins && a.idx < |c.servers[a.peer].logs|
  {
    AcknowledgementRaisesMatchIndex(c, st, a);
    OnlyTheLeaderLeads(c, st, term, l);
    assert MessageOk(c, term, l, AppendResponse(a.peer, l, st.event.sent, st.event.appendReply));
  }

  /** matchIndex only rises within the tenure, and covers a new acknowledgement. */
  lemma MatchIndexRises(c: Config, st: Step, term: int, l: int, p: int)
    requires Steady(c, st, term, l) && 0 <= p < |c.servers[l].matchIndex| && Win(term, l) in c.wins
    ensures p < |Next(c, st).servers[l].matchIndex|
    ensures c.servers[l].matchIndex[p] <= Next(c, st).servers[l].matchIndex[p]
    ensures forall a :: a in Acknowledges(c, st) && a.peer == p ==> a.idx <= Next(c, st).servers[l].matchIndex[p]
  {
    OnlyTheLeaderLeads(c, st, term, l);
    if st.at == l {
      if st.event.AppendReplied? {
        ReplyRaisesMatchIndex(c.servers[l], st.event.peer, st.event.sent, st.event.appendReply, p);
      } else {
        MatchIndexUntouched(c.servers[l], l, st.event);
      }
    }
  }

  lemma ReplyRaisesMatchIndex(s: Server, peer: int, sent: AppendArgs, reply: AppendReply, p: int)
    requires AppendReplySafe(s, peer, sent, reply) && 0 <= p < |s.matchIndex|
    ensures var t := OnAppendReply(s, peer, sent, reply);
      && |t.matchIndex| == |s.matchIndex| && s.matchIndex[p] <= t.matchIndex[p]
      && (reply.success && p == peer ==> reply.lastEntry.index <= t.matchIndex[p])
  {
  }

  lemma MatchIndexUntouched(s: Server, me: int, e: Event)
    requires CanHandle(s, e) && !e.AppendReplied? && !e.HeartBeat? && !(e.Count? && CountWins(s, e.term))
    ensures Handle(s, me, e).matchIndex == s.matchIndex
  {
    match e
    case Batch => assert OnBatch(s, me).matchIndex == s.matchIndex;
    case Count(term) => assert OnCount(s, me, term).matchIndex == s.matchIndex;
    case _ =>
  }

  lemma StepKeepsAcks(c: Config, st: Step, term: int, l: int)
    requires Steady(c, st, term, l)
    ensures AcksOk(Next(c, st), term, l)
  {
    var d := Next(c, st);
    StepProgresses(c, st, term, l);
    assert ServerOk(|c.servers|, c.grants, l, c.servers[l]);
    forall a | a in d.acks
      ensures Win(term, l) in d.wins && a.leader == l && 0 <= a.peer < |d.servers| && a.peer != l
      ensures a.peer < |d.servers[l].matchIndex| && a.idx <= d.servers[l].matchIndex[a.peer]
      ensures a.idx < |d.servers[a.peer].logs|
    {
      if a !in c.acks {
        AcknowledgementIsFresh(c, st, term, l, a);
      }
      MatchIndexRises(c, st, term, l, a.peer);
    }
  }

  lemma CommitConservesPending(s: Server, idx: int)
    requires CommitSafe(s)
    ensures Pending(OnCommit(s), idx) <= Pending(s, idx)
  {
    assert s.commitChnl == [s.commitChnl[0]] + s.commitChnl[1..];
  }

  lemma EventAddsPending(c: Config, st: Step, idx: int)
    requires Enabled(c, st) && !st.event.HeartBeat?
    ensures Pending(Next(c, st).servers[st.at], idx) <=
      Pending(c.servers[st.at], idx) +
        (if exists a :: a in Acknowledges(c, st) && a.idx == idx then 1 else 0)
  {
    var s := c.servers[st.at];
    if st.event.Commit? {
      CommitConservesPending(s, idx);
    } else if st.event.AppendReplied? {
      ReplyAddsPending(c, st, idx);
    } else {
      OtherEventsApplyNothing(s, st.at, st.event);
    }
  }

  lemma ReplyAddsPending(c: Config, st: Step, idx: int)
    requires Enabled(c, st) && st.event.AppendReplied?
    ensures Pending(Next(c, st).servers[st.at], idx) <=
      Pending(c.servers[st.at], idx) +
        (if exists a :: a in Acknowledges(c, st) && a.idx == idx then 1 else 0)
  {
    var e := st.event;
    if e.appendReply.success && e.appendReply.lastEntry.index > c.servers[st.at].matchIndex[e.peer] {
      assert Ack(st.at, e.peer, e.appendReply.lastEntry.index) in Acknowledges(c, st);
    }
  }

  /** Fresh acknowledgements of an index enlarge the set of its ackers. */
  lemma AckersGrow(c: Config, d: Config, l: int, idx: int, added: set<Ack>)
    requires |d.servers| == |c.servers| && d.acks == c.acks + added
    requires forall a :: a in added ==> a !in c.acks && a.leader == l && 0 <= a.peer < |c.servers|
    ensures |Ackers(d, l, idx)| >= |Ackers(c, l, idx)| + (if exists a :: a in added && a.idx == idx then 1 else 0)
  {
    SubsetSize(Ackers(c, l, idx), Ackers(d, l, idx));
    if a :| a in added && a.idx == idx {
      assert a.peer !in Ackers(c, l, idx) && a.peer in Ackers(d, l, idx);
      SubsetSize(Ackers(c, l, idx) + {a.peer}, Ackers(d, l, idx));
    }
  }

  /** How the acks and the leader's count move in one step. */
  lemma StepAddsPending(c: Config, st: Step, term: int, l: int, idx: int)
    requires Steady(c, st, term, l)
    ensures Pending(Next(c, st).servers[l], idx) <=
      Pending(c.servers[l], idx) +
        (if exists a :: a in Acknowledges(c, st) && a.idx == idx then 1 else 0)
  {
    if st.at == l {
      OnlyTheLeaderLeads(c, st, term, l);
      EventAddsPending(c, st, idx);
    }
  }

  lemma StepGrowsAckers(c: Config, st: Step, term: int, l: int, idx: int)
    requires Steady(c, st, term, l)
    ensures |Ackers(Next(c, st), l, idx)| >=
      |Ackers(c, l, idx)| + (if exists a :: a in Acknowledges(c, st) && a.idx == idx then 1 else 0)
  {
    forall a | a in Acknowledges(c, st)
      ensures a !in c.acks && a.leader == l && 0 <= a.peer < |c.servers|
    {
      AcknowledgementIsFresh(c, st, term, l, a);
    }
    AckersGrow(c, Next(c, st), l, idx, Acknowledges(c, st));
  }

  lemma StepKeepsCounts(c: Config, st: Step, term: int, l: int)
    requires Steady(c, st, term, l)
    ensures CountsOk(Next(c, st), l)
  {
    forall idx: int
      ensures Pending(Next(c, st).servers[l], idx) <= |Ackers(Next(c, st), l, idx)|
    {
      assert Pending(c.servers[l], idx) <= |Ackers(c, l, idx)|;
      StepAddsPending(c, st, term, l, idx);
      StepGrowsAckers(c, st, term, l, idx);
    }
  }

  /** The leader's commit index moves only to an index a quorum has acknowledged. */
  ghost predicate MovesWithQuorum(c: Config, l: int, commit: int)
    requires 0 <= l < |c.servers|
  {
    commit == c.servers[l].commitIdx || |Ackers(c, l, commit)| >= |c.servers| / 2
  }

  lemma LeaderCommits(c: Config, st: Step, l: int)
    requires ElectionInv(c) && Enabled(c, st) && st.at == l && st.event.Commit? && CountsOk(c, l)
    ensures MovesWithQuorum(c, l, Next(c, st).servers[l].commitIdx)
  {
    assert ServerOk(|c.servers|, c.grants, l, c.servers[l]);
    CommitNeedsQuorum(c, l);
  }

  lemma LeaderCommitMoves(c: Config, st: Step, term: int, l: int)
    requires Steady(c, st, term, l)
    ensures MovesWithQuorum(c, l, Next(c, st).servers[l].commitIdx)
  {
    OnlyTheLeaderLeads(c, st, term, l);
    if st.at == l {
      if st.event.Commit? {
        LeaderCommits(c, st, l);
      } else {
        OtherEventsApplyNothing(c.servers[l], l, st.event);
      }
    }
  }

  lemma StepKeepsCommitQuorum(c: Config, st: Step, term: int, l: int)
    requires Steady(c, st, term, l)
    ensures CommitOk(Next(c, st), l)
  {
    LeaderCommitMoves(c, st, term, l);
    StepGrowsAckers(c, st, term, l, Next(c, st).servers[l].commitIdx);
  }

  lemma CommitNeedsQuorum(c: Config, l: int)
    requires 0 <= l < |c.servers| && CommitSafe(c.servers[l]) && CountsOk(c, l)
    requires |c.servers[l].rdy| == |c.servers|
    ensures var t := OnCommit(c.servers[l]);
      t.commitIdx == c.servers[l].commitIdx || |Ackers(c, l, t.commitIdx)| >= |c.servers| / 2
  {
    var s := c.servers[l];
    assert s.commitChnl[0] in multiset(s.commitChnl);
    assert Pending(s, s.commitChnl[0]) <= |Ackers(c, l, s.commitChnl[0])|;
  }

  lemma StepKeepsTenureInv(c: Config, st: Step, term: int, l: int)
    requires Steady(c, st, term, l)
    ensures TenureInv(Next(c, st), term, l)
  {
    StepKeepsLeaderLog(c, st, term, l);
    StepKeepsTraffic(c, st, term, l);
    StepKeepsAcks(c, st, term, l);
    StepKeepsCounts(c, st, term, l);
    StepKeepsCommitQuorum(c, st, term, l);
    StepKeepsAllApplied(c, st, term, l);
    StepKeepsChannelsEmpty(c, st, term, l);
    StepKeepsLeaderOutgoing(c, st, term, l);
  }

  lemma StepKeepsLeaderOutgoing(c: Config, st: Step, term: int, l: int)
    requires Steady(c, st, term, l)
    ensures OutgoingOk(Next(c, st).servers[l])
  {
    OnlyTheLeaderLeads(c, st, term, l);
    if st.at == l {
      EventKeepsOutgoing(c.servers[l], l, st.event);
    }
  }

  // ---------------------------------------------------------------- whole runs

  lemma SoleWinnerBefore(c: Config, st: Step, term: int, l: int)
    requires Enabled(c, st) && SoleWinner(Next(c, st), term, l)
    ensures SoleWinner(c, term, l)
  {
    WinsGrow(c, st);
  }

  lemma {:induction false} TenureHolds(n: nat, trace: seq<Config>, steps: seq<Step>, k: nat, term: int, l: int)
    requires CleanRun(n, trace, steps) && k < |trace| && SoleWinner(trace[k], term, l)
    ensures TenureInv(trace[k], term, l)
  {
    if k > 0 {
      CleanStepsAreGood(n, trace, steps, k - 1);
      SoleWinnerBefore(trace[k - 1], steps[k - 1], term, l);
      TenureHolds(n, trace, steps, k - 1, term, l);
      StepKeepsTenureInv(trace[k - 1], steps[k - 1], term, l);
    } else {
      CleanRunKeepsLogInv(n, trace, steps, 0);
      FreshClusterIsATenure(n, term, l);
    }
  }

  lemma FreshClusterIsATenure(n: nat, term: int, l: int)
    requires 0 <= l < n
    ensures TenureInv(Init(n), term, l)
  {
    var c := Init(n);
    assert forall idx: int :: Pending(c.servers[l], idx) == 0;
  }

  /** The servers that hold the leader's entry at position j. */
  function Holders(c: Config, l: int, j: nat): set<int>
    requires 0 <= l < |c.servers| && j < |c.servers[l].logs|
  {
    set p | 0 <= p < |c.servers| && j < |c.servers[p].logs| && c.servers[p].logs[j] == c.servers[l].logs[j]
  }

  /** The leader and the followers that acknowledged its commit index hold every entry up to it. */
  lemma CommittedEntriesAreHeld(c: Config, term: int, l: int, j: nat)
    requires ElectionInv(c) && LogInv(c) && TenureInv(c, term, l) && 1 <= j <= c.servers[l].commitIdx
    ensures j < |c.servers[l].logs| && |Holders(c, l, j)| > |c.servers| / 2
  {
    var commit := c.servers[l].commitIdx;
    assert AppliedOk(c.servers[l], commit);
    forall p | p in CommitQuorum(c, l)
      ensures p in Holders(c, l, j)
    {
      QuorumHoldsCommitted(c, term, l, p);
    }
    CommitQuorumIsMajority(c, term, l);
    SubsetSize(CommitQuorum(c, l), Holders(c, l, j));
  }

  /** The leader and the followers that acknowledged its commit index. */
  function CommitQuorum(c: Config, l: int): set<int>
    requires 0 <= l < |c.servers|
  {
    Ackers(c, l, c.servers[l].commitIdx) + {l}
  }

  lemma CommitQuorumIsMajority(c: Config, term: int, l: int)
    requires TenureInv(c, term, l) && c.servers[l].commitIdx > 0
    ensures CommitQuorum(c, l) <= Range(|c.servers|) && |CommitQuorum(c, l)| > |c.servers| / 2
  {
    assert l !in Ackers(c, l, c.servers[l].commitIdx);
  }

  lemma QuorumHoldsCommitted(c: Config, term: int, l: int, p: int)
    requires LogInv(c) && TenureInv(c, term, l) && p in CommitQuorum(c, l)
    ensures 0 <= p < |c.servers| && c.servers[l].commitIdx < |c.servers[p].logs|
    ensures c.servers[p].logs <= c.servers[l].logs
  {
    assert AppliedOk(c.servers[l], c.servers[l].commitIdx);
    if p != l {
      assert Ack(l, p, c.servers[l].commitIdx) in c.acks;
    }
    SoleWinnerPinsLogs(c, term, l, p);
  }

  /** Safety of a whole single-leader tenure. At every point of a clean run in which only server
      `l` has won: every log is a prefix of l's; every index any server has committed is held
      identically by a majority; what each server has applied is l's log up to its lastApplied;
      and l counts each follower at most once per index. */
  lemma SingleTenureIsSafe(n: nat, trace: seq<Config>, steps: seq<Step>, k: nat, term: int, l: int)
    requires CleanRun(n, trace, steps) && k < |trace| && 0 <= l < n && trace[k].wins <= {Win(term, l)}
    ensures |trace[k].servers| == n && CountsOk(trace[k], l)
    ensures forall i :: 0 <= i < n ==> trace[k].servers[i].logs <= trace[k].servers[l].logs
    ensures forall i, j: nat :: 0 <= i < n && 1 <= j <= trace[k].servers[i].commitIdx ==>
              j < |trace[k].servers[l].logs| && |Holders(trace[k], l, j)| > n / 2
    ensures forall i :: 0 <= i < n ==>
              && 0 <= trace[k].servers[i].lastApplied < |trace[k].servers[l].logs|
              && trace[k].servers[i].applied ==
                 Messages(trace[k].servers[l].logs[1..trace[k].servers[i].lastApplied + 1])
  {
    CleanRunKeepsLogInv(n, trace, steps, k);
    TenureHolds(n, trace, steps, k, term, l);
    forall i | 0 <= i < n
      ensures trace[k].servers[i].logs <= trace[k].servers[l].logs
      ensures 0 <= trace[k].servers[i].lastApplied < |trace[k].servers[l].logs|
      ensures trace[k].servers[i].applied ==
        Messages(trace[k].servers[l].logs[1..trace[k].servers[i].lastApplied + 1])
    {
      MemberIsSafe(trace[k], term, l, i);
    }
    forall i, j: nat | 0 <= i < n && 1 <= j <= trace[k].servers[i].commitIdx
      ensures j < |trace[k].servers[l].logs| && |Holders(trace[k], l, j)| > n / 2
    {
      assert AppliedOk(trace[k].servers[i], trace[k].servers[l].commitIdx);
      CommittedEntriesAreHeld(trace[k], term, l, j);
    }
  }

  lemma MemberIsSafe(c: Config, term: int, l: int, i: int)
    requires LogInv(c) && TenureInv(c, term, l) && 0 <= i < |c.servers|
    ensures c.servers[i].logs <= c.servers[l].logs
    ensures 0 <= c.servers[i].lastApplied < |c.servers[l].logs|
    ensures c.servers[i].applied == Messages(c.servers[l].logs[1..c.servers[i].lastApplied + 1])
  {
    SoleWinnerPinsLogs(c, term, l, i);
    var s := c.servers[i];
    assert AppliedOk(s, c.servers[l].commitIdx) && GaplessStream(s);
    assert s.logs[1..s.lastApplied + 1] == c.servers[l].logs[1..s.lastApplied + 1];
  }
}
