/** Log Matching over any number of terms, in every clean run (section 5.3 of the extended
    Raft paper). The proof keeps, for every term won, the log its winner has had in that term;
    every entry anywhere pins its log, up to that entry, to the log of the entry's term. */
module LogMatching {
  import opened RaftTypes
  import opened RaftHandlers
  import opened RaftSteps
  import LogLemmas
  import opened HeartBeatMerge
  import opened Cluster
  import opened ElectionSafety
  import opened ApplyStream

  type LeaderLogs = map<int, seq<Entry>>

  /** Up to each of its entries the log is the log of that entry's term. */
  ghost predicate LogOk(ll: LeaderLogs, log: seq<Entry>) {
    && GoodLog(log)
    && forall i :: 1 <= i < |log| ==>
         && log[i].term >= 1 && log[i].term in ll && i < |ll[log[i].term]|
         && log[..i + 1] == ll[log[i].term][..i + 1]
  }

  predicate TermsUpTo(log: seq<Entry>, term: int) {
    forall i :: 0 <= i < |log| ==> log[i].term <= term
  }

  ghost predicate LeadersOk(ll: LeaderLogs) {
    forall term :: term in ll ==> term >= 1 && LogOk(ll, ll[term]) && TermsUpTo(ll[term], term)
  }

  /** No other server has won the term. */
  ghost predicate Unrivalled(wins: set<Win>, term: int, i: int) {
    forall w :: w in wins && w.term == term ==> w.server == i
  }

  /** Queued arguments of the current term are stretches of the log, unless another server won the term. */
  ghost predicate QueuesOk(wins: set<Win>, i: int, s: Server) {
    && (0 <= i < |s.rdy| ==> s.rdy[i] == [])
    && forall p, k :: 0 <= p < |s.rdy| && 0 <= k < |s.rdy[p]| ==> QueuedOk(wins, i, s, s.rdy[p][k])
  }

  ghost predicate QueuedOk(wins: set<Win>, i: int, s: Server, a: AppendArgs) {
    && a.term <= s.currentTerm
    && (a.term == s.currentTerm && a.term in s.tallies && Unrivalled(wins, a.term, i) ==>
          Segment(s.logs, a.prevLog, a.entries))
  }

  /** A candidate's log still ends as when it asked for votes, unless another server won the term. */
  ghost predicate CandidacyOk(wins: set<Win>, i: int, s: Server)
    requires s.logs != []
  {
    && (forall term :: term in s.tallies ==> 1 <= term <= s.currentTerm)
    && (s.currentTerm in s.tallies && Win(s.currentTerm, i) !in wins && Unrivalled(wins, s.currentTerm, i) ==>
          s.tallies[s.currentTerm].lastLog == Last(s.logs))
    && (forall w :: w in wins && w.server == i ==> w.term in s.tallies && !s.tallies[w.term].open)
  }

  /** Jobs carry terms this server won, in order; those of the current term continue the log. */
  ghost predicate JobsOk(wins: set<Win>, i: int, s: Server) {
    && (forall k :: 0 <= k < |s.jobs| ==> Win(s.jobs[k].term, i) in wins && s.jobs[k].term <= s.currentTerm)
    && (forall j, k :: 0 <= j < k < |s.jobs| ==> s.jobs[j].term <= s.jobs[k].term)
    && (s.jobs == [] || s.jobs[0].term == s.currentTerm ==>
          Contiguous(s.jobs, |s.logs|) && s.logidx == |s.logs| + |s.jobs| - 1)
  }

  ghost predicate LogServerOk(ll: LeaderLogs, wins: set<Win>, i: int, s: Server) {
    && LogOk(ll, s.logs) && TermsUpTo(s.logs, s.currentTerm)
    && (Win(s.currentTerm, i) in wins ==> s.currentTerm in ll && s.logs == ll[s.currentTerm])
    && QueuesOk(wins, i, s) && CandidacyOk(wins, i, s) && JobsOk(wins, i, s)
  }

  ghost predicate AppendOk(ll: LeaderLogs, wins: set<Win>, src: int, dst: int, a: AppendArgs) {
    && src != dst && Win(a.term, src) in wins && a.term in ll
    && Segment(ll[a.term], a.prevLog, a.entries)
  }

  ghost predicate LogInv(c: Config) {
    && LeadersOk(c.leaderLogs)
    && (forall w :: w in c.wins ==> w.term in c.leaderLogs)
    && (forall term :: term in c.leaderLogs ==> exists w :: w in c.wins && w.term == term)
    && (forall i :: 0 <= i < |c.servers| ==>
          LogServerOk(c.leaderLogs, c.wins, i, c.servers[i]) && GaplessStream(c.servers[i]))
    && (forall m :: m in c.net && m.AppendRequest? ==> AppendOk(c.leaderLogs, c.wins, m.src, m.dst, m.append))
  }

  // ---------------------------------------------------------------- logs and leader logs

  /** Two logs pinned to the same leader logs match. */
  lemma PinnedLogsMatch(ll: LeaderLogs, a: seq<Entry>, b: seq<Entry>)
    requires LogOk(ll, a) && LogOk(ll, b)
    ensures Matching(a, b)
  {
    forall i | 0 <= i < |a| && i < |b| && a[i].term == b[i].term
      ensures a[..i + 1] == b[..i + 1]
    {
      if i == 0 {
        assert a[..1] == [SENTINEL] == b[..1];
      }
    }
  }

  lemma PrefixIsPinned(ll: LeaderLogs, log: seq<Entry>, q: nat)
    requires LogOk(ll, log) && 1 <= q <= |log|
    ensures LogOk(ll, log[..q])
  {
    forall i | 1 <= i < q
      ensures log[..q][..i + 1] == ll[log[i].term][..i + 1]
    {
      assert log[..q][..i + 1] == log[..i + 1];
    }
  }

  /** Every term keeps its leader log, possibly longer. */
  ghost predicate Grows(ll: LeaderLogs, more: LeaderLogs) {
    forall term :: term in ll ==> term in more && ll[term] <= more[term]
  }

  lemma PinnedStaysPinned(ll: LeaderLogs, more: LeaderLogs, log: seq<Entry>)
    requires LogOk(ll, log) && Grows(ll, more)
    ensures LogOk(more, log)
  {
    forall i | 1 <= i < |log|
      ensures log[i].term in more && i < |more[log[i].term]| && log[..i + 1] == more[log[i].term][..i + 1]
    {
      assert ll[log[i].term] <= more[log[i].term];
      assert ll[log[i].term][..i + 1] == more[log[i].term][..i + 1];
    }
  }

  lemma SegmentOfLonger(log: seq<Entry>, longer: seq<Entry>, prev: Entry, entries: seq<Entry>)
    requires log <= longer && Segment(log, prev, entries)
    ensures Segment(longer, prev, entries)
  {
    assert longer[prev.index + 1..prev.index + 1 + |entries|] == log[prev.index + 1..prev.index + 1 + |entries|];
  }

  /** The leader's send-time extension of an argument is again a stretch of its log. */
  lemma ExtendedIsSegment(logs: seq<Entry>, next: int, a: AppendArgs)
    requires GoodLog(logs) && Segment(logs, a.prevLog, a.entries)
    requires a.prevLog.index >= next ==> 1 <= next
    ensures Segment(logs, Extended(logs, next, a).prevLog, Extended(logs, next, a).entries)
  {
    var p := a.prevLog.index;
    if p >= next {
      var end := p + 1 + |a.entries|;
      assert logs[next..p + 1] + logs[p + 1..end] == logs[next..end];
    }
  }

  /** What a server not taking the step keeps as leader logs and wins grow. */
  lemma BystanderStaysOk(ll: LeaderLogs, more: LeaderLogs, wins: set<Win>, after: set<Win>, i: int, s: Server)
    requires LogServerOk(ll, wins, i, s) && Grows(ll, more) && wins <= after
    requires forall w :: w in after && w.server == i ==> w in wins
    requires Win(s.currentTerm, i) in wins ==> more[s.currentTerm] == ll[s.currentTerm]
    ensures LogServerOk(more, after, i, s)
  {
    PinnedStaysPinned(ll, more, s.logs);
    assert forall term :: Unrivalled(after, term, i) ==> Unrivalled(wins, term, i);
    forall p, k | 0 <= p < |s.rdy| && 0 <= k < |s.rdy[p]|
      ensures QueuedOk(after, i, s, s.rdy[p][k])
    {
      assert QueuedOk(wins, i, s, s.rdy[p][k]);
    }
  }

  // ---------------------------------------------------------------- events that leave the log alone

  /** Only the term, the vote, the leader flag and bookkeeping changed. */
  predicate SameLogState(s: Server, t: Server) {
    && t.logs == s.logs && t.logidx == s.logidx && t.jobs == s.jobs && t.rdy == s.rdy
    && t.currentTerm >= s.currentTerm
    && t.tallies.Keys == s.tallies.Keys
    && forall term :: term in s.tallies ==>
         t.tallies[term].lastLog == s.tallies[term].lastLog && (t.tallies[term].open ==> s.tallies[term].open)
  }

  lemma SameLogStateKeepsServer(ll: LeaderLogs, wins: set<Win>, i: int, s: Server, t: Server)
    requires LogServerOk(ll, wins, i, s) && SameLogState(s, t)
    ensures LogServerOk(ll, wins, i, t)
  {
    forall p, k | 0 <= p < |t.rdy| && 0 <= k < |t.rdy[p]|
      ensures QueuedOk(wins, i, t, t.rdy[p][k])
    {
      assert QueuedOk(wins, i, s, s.rdy[p][k]);
    }
  }

  predicate Passive(s: Server, e: Event) {
    || e.RequestVote? || e.Commit? || e.AppendReplied? || e.VoteReplied? || e.TallyTimeout?
    || (e.Count? && CountSafe(s, e.term) && !CountWins(s, e.term))
  }

  lemma AppendReplyKeepsLogState(s: Server, peer: int, sent: AppendArgs, reply: AppendReply)
    requires AppendReplySafe(s, peer, sent, reply)
    ensures SameLogState(s, OnAppendReply(s, peer, sent, reply))
  {
  }

  lemma LosingCountKeepsLogState(s: Server, me: int, term: int)
    requires CountSafe(s, term) && !CountWins(s, term)
    ensures SameLogState(s, OnCount(s, me, term))
  {
  }

  lemma PassiveEventsKeepLogState(s: Server, me: int, e: Event)
    requires CanHandle(s, e) && Passive(s, e)
    ensures SameLogState(s, Handle(s, me, e))
  {
    match e
    case RequestVote(args) => assert SameLogState(s, OnRequestVote(s, args).0);
    case AppendReplied(peer, sent, reply) => AppendReplyKeepsLogState(s, peer, sent, reply);
    case Count(term) => LosingCountKeepsLogState(s, me, term);
    case _ =>
  }

  // ---------------------------------------------------------------- events that change log or queues

  lemma StartKeepsServer(ll: LeaderLogs, wins: set<Win>, i: int, s: Server, command: Command)
    requires LogServerOk(ll, wins, i, s) && (s.isLeader ==> Win(s.currentTerm, i) in wins)
    ensures LogServerOk(ll, wins, i, OnStart(s, command).0)
  {
    var t := OnStart(s, command).0;
    forall p, k | 0 <= p < |t.rdy| && 0 <= k < |t.rdy[p]|
      ensures QueuedOk(wins, i, t, t.rdy[p][k])
    {
      assert QueuedOk(wins, i, s, s.rdy[p][k]);
    }
  }

  lemma TickKeepsServer(ll: LeaderLogs, wins: set<Win>, i: int, s: Server)
    requires LogServerOk(ll, wins, i, s)
    ensures LogServerOk(ll, wins, i, OnTick(s, i))
  {
    var t := OnTick(s, i);
    forall p, k | 0 <= p < |t.rdy| && 0 <= k < |t.rdy[p]|
      ensures QueuedOk(wins, i, t, t.rdy[p][k])
    {
      if t.rdy[p] == s.rdy[p] {
        assert QueuedOk(wins, i, s, s.rdy[p][k]);
      }
    }
  }

  lemma SendKeepsServer(ll: LeaderLogs, wins: set<Win>, i: int, s: Server, peer: int)
    requires LogServerOk(ll, wins, i, s) && SendSafe(s, peer)
    ensures LogServerOk(ll, wins, i, OnSend(s, peer).0)
  {
    var t := OnSend(s, peer).0;
    forall p, k | 0 <= p < |t.rdy| && 0 <= k < |t.rdy[p]|
      ensures QueuedOk(wins, i, t, t.rdy[p][k])
    {
      assert QueuedOk(wins, i, s, s.rdy[p][if p == peer then k + 1 else k]);
    }
  }

  /** A leader sends only stretches of the log of its term. */
  lemma SentIsSegment(ll: LeaderLogs, wins: set<Win>, i: int, s: Server, peer: int)
    requires LogServerOk(ll, wins, i, s) && SendSafe(s, peer) && s.isLeader
    requires Win(s.currentTerm, i) in wins && Unrivalled(wins, s.currentTerm, i)
    requires s.rdy[peer][0].term == s.currentTerm
    ensures AppendOk(ll, wins, i, peer, OnSend(s, peer).1.value)
  {
    assert QueuedOk(wins, i, s, s.rdy[peer][0]);
    ExtendedIsSegment(s.logs, s.nextIndex[peer], s.rdy[peer][0]);
  }

  lemma ElectionKeepsLogServer(ll: LeaderLogs, wins: set<Win>, i: int, s: Server)
    requires LogServerOk(ll, wins, i, s) && s.currentTerm >= 0
    ensures LogServerOk(ll, wins, i, OnElection(s, i).0)
  {
    var t := OnElection(s, i).0;
    forall p, k | 0 <= p < |t.rdy| && 0 <= k < |t.rdy[p]|
      ensures QueuedOk(wins, i, t, t.rdy[p][k])
    {
      assert QueuedOk(wins, i, s, s.rdy[p][k]);
    }
  }

  /** A heartbeat of another server's term leaves a pinned log: the follower's own, a prefix of
      it, or a prefix of the leader's. */
  lemma HeartBeatKeepsServer(ll: LeaderLogs, wins: set<Win>, i: int, s: Server, src: int, args: AppendArgs)
    requires LogServerOk(ll, wins, i, s) && LeadersOk(ll) && s.lastApplied >= 0
    requires AppendOk(ll, wins, src, i, args) && Win(args.term, i) !in wins
    ensures HeartBeatSafe(s, args) && LogServerOk(ll, wins, i, OnHeartBeat(s, args).0)
  {
    var leader := ll[args.term];
    SegmentIsContiguous(leader, args);
    LogLemmas.ContiguousHeartBeatIsSafe(s, args);
    if args.term >= s.currentTerm {
      PinnedLogsMatch(ll, s.logs, leader);
      HeartBeatReconciles(s, leader, args);
      HeartBeatLeavesQueues(s, args);
      AcceptedLogIsPinned(ll, s.logs, leader, OnHeartBeat(s, args).0.logs, Reach(args));
      HeartBeatMovesServer(ll, wins, i, s, src, args.term, OnHeartBeat(s, args).0);
    }
  }

  lemma AcceptedLogIsPinned(ll: LeaderLogs, log: seq<Entry>, leader: seq<Entry>, r: seq<Entry>, q: nat)
    requires LogOk(ll, log) && LogOk(ll, leader) && 1 <= q <= |leader|
    requires r == Reconciled(log, leader, q) || (r != [] && r <= log)
    ensures LogOk(ll, r)
    ensures forall term :: TermsUpTo(log, term) && TermsUpTo(leader, term) ==> TermsUpTo(r, term)
  {
    PrefixIsPinned(ll, leader, q);
    if r != [] && r <= log {
      PrefixIsPinned(ll, log, |r|);
      assert r == log[..|r|];
    }
  }

  lemma HeartBeatLeavesQueues(s: Server, args: AppendArgs)
    requires HeartBeatSafe(s, args)
    ensures var t := OnHeartBeat(s, args).0;
            && t.jobs == s.jobs && t.rdy == s.rdy && t.tallies == s.tallies
            && t.nextIndex == s.nextIndex && t.matchIndex == s.matchIndex
            && t.commitChnl == s.commitChnl && t.commitTracker == s.commitTracker
  {
  }

  /** Following another server's term makes every claim about the own term void. */
  lemma HeartBeatMovesServer(ll: LeaderLogs, wins: set<Win>, i: int, s: Server, src: int, term: int, t: Server)
    requires LogServerOk(ll, wins, i, s) && term >= s.currentTerm
    requires Win(term, src) in wins && src != i && Win(term, i) !in wins
    requires t.jobs == s.jobs && t.rdy == s.rdy && t.tallies == s.tallies && t.currentTerm == term
    requires LogOk(ll, t.logs) && TermsUpTo(t.logs, term)
    requires t.logidx == |t.logs| - 1 || (t.logidx == s.logidx && t.logs == s.logs)
    ensures LogServerOk(ll, wins, i, t)
  {
    assert !Unrivalled(wins, term, i);
    forall p, k | 0 <= p < |t.rdy| && 0 <= k < |t.rdy[p]|
      ensures QueuedOk(wins, i, t, t.rdy[p][k])
    {
      assert QueuedOk(wins, i, s, s.rdy[p][k]);
    }
  }

  /** The clean batch of a leader extends its own term's log. */
  lemma BatchExtends(ll: LeaderLogs, wins: set<Win>, i: int, s: Server)
    requires LogServerOk(ll, wins, i, s) && BatchSafe(s) && s.isLeader
    requires forall k :: 0 <= k < BatchCount(s.jobs) ==> s.jobs[k].term == s.currentTerm
    requires Win(s.currentTerm, i) in wins
    ensures var t := OnBatch(s, i); var batch := s.jobs[..BatchCount(s.jobs)];
            && t.logs == s.logs + batch && GoodLog(t.logs)
            && (forall e :: e in batch ==> e.term == s.currentTerm)
            && t.rdy == Pushed(s.rdy, i, AppendArgs(s.currentTerm, i, Last(s.logs), batch, s.commitIdx))
            && Segment(t.logs, Last(s.logs), batch)
  {
    LogLemmas.BatchAppendsJobs(s);
  }

  lemma ExtendedLogIsPinned(ll: LeaderLogs, term: int, log: seq<Entry>, batch: seq<Entry>)
    requires LogOk(ll, log) && term in ll && log == ll[term] && GoodLog(log + batch) && term >= 1
    requires forall e :: e in batch ==> e.term == term
    ensures LogOk(ll[term := log + batch], log + batch) && Grows(ll, ll[term := log + batch])
  {
    PinnedStaysPinned(ll, ll[term := log + batch], log);
    forall k | 1 <= k < |log + batch|
      ensures (log + batch)[k].term in ll
      ensures k < |ll[term := log + batch][(log + batch)[k].term]|
      ensures (log + batch)[..k + 1] == ll[term := log + batch][(log + batch)[k].term][..k + 1]
    {
      if k < |log| {
        assert (log + batch)[..k + 1] == log[..k + 1];
      } else {
        assert (log + batch)[k] in batch;
      }
    }
  }

  lemma BatchKeepsServer(ll: LeaderLogs, wins: set<Win>, i: int, s: Server)
    requires LogServerOk(ll, wins, i, s) && BatchSafe(s) && s.isLeader
    requires forall k :: 0 <= k < BatchCount(s.jobs) ==> s.jobs[k].term == s.currentTerm
    requires Win(s.currentTerm, i) in wins
    ensures LogServerOk(ll[s.currentTerm := OnBatch(s, i).logs], wins, i, OnBatch(s, i))
  {
    BatchExtends(ll, wins, i, s);
    var t := OnBatch(s, i);
    var batch := s.jobs[..BatchCount(s.jobs)];
    ExtendedLogIsPinned(ll, s.currentTerm, s.logs, batch);
    forall k | 0 <= k < |t.logs|
      ensures t.logs[k].term <= s.currentTerm
    {
      if k >= |s.logs| { assert t.logs[k] in batch; }
    }
    forall p, k | 0 <= p < |t.rdy| && 0 <= k < |t.rdy[p]|
      ensures QueuedOk(wins, i, t, t.rdy[p][k])
    {
      if k < |s.rdy[p]| {
        assert QueuedOk(wins, i, s, s.rdy[p][k]);
        if Segment(s.logs, s.rdy[p][k].prevLog, s.rdy[p][k].entries) {
          SegmentOfLonger(s.logs, t.logs, s.rdy[p][k].prevLog, s.rdy[p][k].entries);
        }
      }
    }
  }

  /** A clean win makes the winner's log the log of the term. */
  lemma WinKeepsServer(ll: LeaderLogs, wins: set<Win>, i: int, s: Server)
    requires LogServerOk(ll, wins, i, s)
    requires CountSafe(s, s.currentTerm) && CountWins(s, s.currentTerm)
    requires s.currentTerm !in ll && Win(s.currentTerm, i) !in wins
    ensures LogServerOk(ll[s.currentTerm := s.logs], wins + {Win(s.currentTerm, i)}, i, OnCount(s, i, s.currentTerm))
  {
    var t := OnCount(s, i, s.currentTerm);
    var after := wins + {Win(s.currentTerm, i)};
    PinnedStaysPinned(ll, ll[s.currentTerm := s.logs], s.logs);
    assert forall term :: Unrivalled(after, term, i) ==> Unrivalled(wins, term, i);
    forall p, k | 0 <= p < |t.rdy| && 0 <= k < |t.rdy[p]|
      ensures QueuedOk(after, i, t, t.rdy[p][k])
    {
      if k < |s.rdy[p]| {
        assert QueuedOk(wins, i, s, s.rdy[p][k]);
      }
    }
  }

  // ---------------------------------------------------------------- one step

  lemma LeaderIsUnrivalled(c: Config, term: int, i: int)
    requires ElectionInv(c) && Win(term, i) in c.wins
    ensures Unrivalled(c.wins, term, i)
  {
    forall w | w in c.wins && w.term == term
      ensures w.server == i
    {
      WinsAgree(c, w, Win(term, i));
    }
  }

  /** A heartbeat comes from the only winner of its term, which is not its receiver. */
  lemma HeartBeatIsForeign(c: Config, st: Step)
    requires ElectionInv(c) && LogInv(c) && Enabled(c, st) && st.event.HeartBeat?
    ensures AppendOk(c.leaderLogs, c.wins, st.src, st.at, st.event.append)
    ensures Win(st.event.append.term, st.at) !in c.wins
  {
    assert AppendOk(c.leaderLogs, c.wins, st.src, st.at, st.event.append);
    if Win(st.event.append.term, st.at) in c.wins {
      LeaderIsUnrivalled(c, st.event.append.term, st.at);
      assert false;
    }
  }

  /** A clean win is of a term no one has won before. */
  lemma WinIsNew(c: Config, st: Step)
    requires ElectionInv(c) && LogInv(c) && Enabled(c, st) && Winning(c, st)
    ensures st.event.term !in c.leaderLogs && Win(st.event.term, st.at) !in c.wins
  {
    StepKeepsElectionInv(c, st);
    assert LogServerOk(c.leaderLogs, c.wins, st.at, c.servers[st.at]);
    if st.event.term in c.leaderLogs {
      var w :| w in c.wins && w.term == st.event.term;
      WinsAgree(Next(c, st), w, Win(st.event.term, st.at));
    }
  }

  ghost predicate Good(c: Config, st: Step) {
    && ElectionInv(c) && LogInv(c) && Enabled(c, st) && CleanConfig(c) && CleanStep(c, st)
  }

  lemma StepGrowsLeaderLogs(c: Config, st: Step)
    requires Good(c, st)
    ensures Grows(c.leaderLogs, Next(c, st).leaderLogs)
    ensures LeadersOk(Next(c, st).leaderLogs)
  {
    var ll, s, d := c.leaderLogs, c.servers[st.at], Next(c, st);
    assert LogServerOk(ll, c.wins, st.at, s);
    if st.event.Batch? {
      BatchExtends(ll, c.wins, st.at, s);
      BatchKeepsServer(ll, c.wins, st.at, s);
      ExtendedLogIsPinned(ll, s.currentTerm, s.logs, s.jobs[..BatchCount(s.jobs)]);
    } else if Winning(c, st) {
      WinIsNew(c, st);
      assert d.leaderLogs == ll[s.currentTerm := s.logs];
      PinnedStaysPinned(ll, d.leaderLogs, s.logs);
    }
    forall term | term in d.leaderLogs
      ensures term >= 1 && LogOk(d.leaderLogs, d.leaderLogs[term]) && TermsUpTo(d.leaderLogs[term], term)
    {
      if term in ll && d.leaderLogs[term] == ll[term] {
        PinnedStaysPinned(ll, d.leaderLogs, ll[term]);
      }
    }
  }

  lemma PassiveActorStaysOk(c: Config, st: Step)
    requires Good(c, st) && Passive(c.servers[st.at], st.event)
    ensures LogServerOk(Next(c, st).leaderLogs, Next(c, st).wins, st.at, Next(c, st).servers[st.at])
  {
    var s := c.servers[st.at];
    assert LogServerOk(c.leaderLogs, c.wins, st.at, s);
    PassiveEventsKeepLogState(s, st.at, st.event);
    SameLogStateKeepsServer(c.leaderLogs, c.wins, st.at, s, Handle(s, st.at, st.event));
  }

  lemma ActiveActorStaysOk(c: Config, st: Step)
    requires Good(c, st) && !Passive(c.servers[st.at], st.event)
    ensures LogServerOk(Next(c, st).leaderLogs, Next(c, st).wins, st.at, Next(c, st).servers[st.at])
  {
    var ll, wins, s := c.leaderLogs, c.wins, c.servers[st.at];
    assert LogServerOk(ll, wins, st.at, s);
    match st.event
    case HeartBeat(args) =>
      HeartBeatIsForeign(c, st);
      HeartBeatKeepsServer(ll, wins, st.at, s, st.src, args);
    case Start(command) => StartKeepsServer(ll, wins, st.at, s, command);
    case Tick => TickKeepsServer(ll, wins, st.at, s);
    case Batch => BatchKeepsServer(ll, wins, st.at, s);
    case Send(peer) => SendKeepsServer(ll, wins, st.at, s, peer);
    case Elect => ElectionKeepsLogServer(ll, wins, st.at, s);
    case Count(term) =>
      WinIsNew(c, st);
      WinKeepsServer(ll, wins, st.at, s);
  }

  lemma ActorStaysOk(c: Config, st: Step)
    requires Good(c, st)
    ensures LogServerOk(Next(c, st).leaderLogs, Next(c, st).wins, st.at, Next(c, st).servers[st.at])
  {
    if Passive(c.servers[st.at], st.event) {
      PassiveActorStaysOk(c, st);
    } else {
      ActiveActorStaysOk(c, st);
    }
  }

  /** A step at another server leaves alone the log of a term this server won. */
  lemma OthersLeaderLogIsKept(c: Config, st: Step, term: int, i: int)
    requires Good(c, st) && i != st.at && Win(term, i) in c.wins
    ensures term in c.leaderLogs && Next(c, st).leaderLogs[term] == c.leaderLogs[term]
  {
    LeaderIsUnrivalled(c, term, i);
    if Winning(c, st) {
      WinIsNew(c, st);
    }
  }

  lemma WinsGrow(c: Config, st: Step)
    requires Enabled(c, st)
    ensures c.wins <= Next(c, st).wins
    ensures forall w :: w in Next(c, st).wins && w !in c.wins ==> w.server == st.at
  {
  }

  lemma OthersStayOk(c: Config, st: Step, i: int)
    requires Good(c, st) && 0 <= i < |c.servers| && i != st.at
    ensures LogServerOk(Next(c, st).leaderLogs, Next(c, st).wins, i, c.servers[i])
  {
    var s := c.servers[i];
    StepGrowsLeaderLogs(c, st);
    WinsGrow(c, st);
    if Win(s.currentTerm, i) in c.wins {
      OthersLeaderLogIsKept(c, st, s.currentTerm, i);
    }
    BystanderStaysOk(c.leaderLogs, Next(c, st).leaderLogs, c.wins, Next(c, st).wins, i, s);
  }

  lemma AppendStaysOk(
    ll: LeaderLogs, more: LeaderLogs, wins: set<Win>, after: set<Win>, src: int, dst: int, a: AppendArgs)
    requires AppendOk(ll, wins, src, dst, a) && Grows(ll, more) && wins <= after
    ensures AppendOk(more, after, src, dst, a)
  {
    SegmentOfLonger(ll[a.term], more[a.term], a.prevLog, a.entries);
  }

  lemma StepKeepsAppends(c: Config, st: Step)
    requires Good(c, st)
    ensures forall m :: m in Next(c, st).net && m.AppendRequest? ==>
              AppendOk(Next(c, st).leaderLogs, Next(c, st).wins, m.src, m.dst, m.append)
  {
    var d := Next(c, st);
    StepGrowsLeaderLogs(c, st);
    forall m | m in d.net && m.AppendRequest?
      ensures AppendOk(d.leaderLogs, d.wins, m.src, m.dst, m.append)
    {
      if m !in c.net {
        SentIsOk(c, st, m);
      }
      AppendStaysOk(c.leaderLogs, d.leaderLogs, c.wins, d.wins, m.src, m.dst, m.append);
    }
  }

  lemma SentIsOk(c: Config, st: Step, m: Message)
    requires Good(c, st) && m in Sends(c, st) && m.AppendRequest?
    ensures AppendOk(c.leaderLogs, c.wins, m.src, m.dst, m.append)
  {
    var s := c.servers[st.at];
    assert LogServerOk(c.leaderLogs, c.wins, st.at, s);
    LeaderIsUnrivalled(c, s.currentTerm, st.at);
    SentIsSegment(c.leaderLogs, c.wins, st.at, s, st.event.peer);
  }

  /** Clean steps only take numbered messages and batches, so every applied stream stays gapless. */
  lemma StepKeepsStreams(c: Config, st: Step)
    requires Good(c, st)
    ensures GaplessStream(Next(c, st).servers[st.at])
    ensures c.servers[st.at].applied <= Next(c, st).servers[st.at].applied
  {
    var s := c.servers[st.at];
    assert LogServerOk(c.leaderLogs, c.wins, st.at, s);
    if st.event.HeartBeat? {
      HeartBeatIsForeign(c, st);
      SegmentIsContiguous(c.leaderLogs[st.event.append.term], st.event.append);
    }
    EventKeepsStream(s, st.at, st.event);
  }

  lemma StepKeepsWinners(c: Config, st: Step)
    requires Good(c, st)
    ensures forall w :: w in Next(c, st).wins ==> w.term in Next(c, st).leaderLogs
    ensures forall term :: term in Next(c, st).leaderLogs ==> exists w :: w in Next(c, st).wins && w.term == term
  {
    var d := Next(c, st);
    if Winning(c, st) {
      assert Win(st.event.term, st.at) in d.wins;
    }
    assert LogServerOk(c.leaderLogs, c.wins, st.at, c.servers[st.at]);
  }

  lemma StepKeepsLogInv(c: Config, st: Step)
    requires Good(c, st)
    ensures LogInv(Next(c, st))
  {
    StepGrowsLeaderLogs(c, st);
    StepKeepsAppends(c, st);
    StepKeepsStreams(c, st);
    StepKeepsWinners(c, st);
    ActorStaysOk(c, st);
    forall i | 0 <= i < |c.servers|
      ensures LogServerOk(Next(c, st).leaderLogs, Next(c, st).wins, i, Next(c, st).servers[i])
      ensures GaplessStream(Next(c, st).servers[i])
    {
      if i != st.at {
        OthersStayOk(c, st, i);
      }
    }
  }

  // ---------------------------------------------------------------- whole runs

  lemma {:induction false} CleanRunKeepsLogInv(n: nat, trace: seq<Config>, steps: seq<Step>, k: nat)
    requires CleanRun(n, trace, steps) && k < |trace|
    ensures ElectionInv(trace[k]) && LogInv(trace[k]) && |trace[k].servers| == n
  {
    RunKeepsElectionInv(n, trace, steps, k);
    if k == 0 {
    } else {
      CleanRunKeepsLogInv(n, trace, steps, k - 1);
      assert CleanConfig(trace[k - 1]) && CleanStep(trace[k - 1], steps[k - 1]);
      StepKeepsLogInv(trace[k - 1], steps[k - 1]);
    }
  }

  lemma CleanStepsAreGood(n: nat, trace: seq<Config>, steps: seq<Step>, k: nat)
    requires CleanRun(n, trace, steps) && k < |steps|
    ensures Good(trace[k], steps[k]) && trace[k + 1] == Next(trace[k], steps[k]) && |trace[k].servers| == n
  {
    CleanRunKeepsLogInv(n, trace, steps, k);
  }

  /** Log Matching: in every configuration of every clean run, two servers whose logs carry the
      same term at the same position are identical up to that position. */
  lemma LogsMatch(n: nat, trace: seq<Config>, steps: seq<Step>, k: nat, i: int, j: int)
    requires CleanRun(n, trace, steps) && k < |trace| && 0 <= i < n && 0 <= j < n
    ensures |trace[k].servers| == n && Matching(trace[k].servers[i].logs, trace[k].servers[j].logs)
  {
    CleanRunKeepsLogInv(n, trace, steps, k);
    var c := trace[k];
    assert LogServerOk(c.leaderLogs, c.wins, i, c.servers[i]) && LogServerOk(c.leaderLogs, c.wins, j, c.servers[j]);
    PinnedLogsMatch(c.leaderLogs, c.servers[i].logs, c.servers[j].logs);
  }

  /** A pinned log's terms never fall. */
  lemma PinnedIsAged(ll: LeaderLogs, log: seq<Entry>, term: int)
    requires LeadersOk(ll) && LogOk(ll, log) && TermsUpTo(log, term)
    ensures Aged(log, term)
  {
    forall i, j | 0 <= i < j < |log|
      ensures log[i].term <= log[j].term
    {
      assert log[..j + 1][i] == ll[log[j].term][..j + 1][i];
    }
  }

  /** In every clean run the terms along each log never fall and stay within the server's term, and
      each request is a stretch of such a log of its own term. */
  lemma LogsAreAged(n: nat, trace: seq<Config>, steps: seq<Step>, k: nat, i: int)
    requires CleanRun(n, trace, steps) && k < |trace| && 0 <= i < n
    ensures |trace[k].servers| == n && Aged(trace[k].servers[i].logs, trace[k].servers[i].currentTerm)
    ensures forall m :: m in trace[k].net && m.AppendRequest? ==>
      && m.append.term >= 1 && m.append.term in trace[k].leaderLogs
      && GoodLog(trace[k].leaderLogs[m.append.term]) && Aged(trace[k].leaderLogs[m.append.term], m.append.term)
      && Segment(trace[k].leaderLogs[m.append.term], m.append.prevLog, m.append.entries)
  {
    CleanRunKeepsLogInv(n, trace, steps, k);
    var c := trace[k];
    assert LogServerOk(c.leaderLogs, c.wins, i, c.servers[i]);
    PinnedIsAged(c.leaderLogs, c.servers[i].logs, c.servers[i].currentTerm);
    forall m | m in c.net && m.AppendRequest?
      ensures m.append.term >= 1 && m.append.term in c.leaderLogs
      ensures GoodLog(c.leaderLogs[m.append.term]) && Aged(c.leaderLogs[m.append.term], m.append.term)
      ensures Segment(c.leaderLogs[m.append.term], m.append.prevLog, m.append.entries)
    {
      assert AppendOk(c.leaderLogs, c.wins, m.src, m.dst, m.append);
      PinnedIsAged(c.leaderLogs, c.leaderLogs[m.append.term], m.append.term);
    }
  }

  /** In every clean run each server's apply stream carries the indices 1..lastApplied, and the
      log stays numbered by position. */
  lemma StreamsAreGapless(n: nat, trace: seq<Config>, steps: seq<Step>, k: nat, i: int)
    requires CleanRun(n, trace, steps) && k < |trace| && 0 <= i < n
    ensures |trace[k].servers| == n && GaplessStream(trace[k].servers[i])
  {
    CleanRunKeepsLogInv(n, trace, steps, k);
  }
}
