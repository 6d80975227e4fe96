/** Runs take only steps whose code stays within bounds. Which steps that leaves out, of those the
    code would come to take: in a single-leader tenure none; at any point of a clean run only
    three kinds, each under an exact condition. CleanPanics reaches all three. */
module NoPanic {
  import opened RaftTypes
  import opened RaftHandlers
  import opened RaftSteps
  import HeartBeatMerge
  import opened ApplyStream
  import opened Cluster
  import opened ElectionSafety
  import opened LogMatching
  import opened Tenure

  /** The code comes to take the step: its message has been sent, its queue or channel holds
      something, its goroutine is running. Nothing is said about the bounds it then relies on. */
  predicate Due(c: Config, st: Step) {
    && 0 <= st.at < |c.servers|
    && var s := c.servers[st.at];
       match st.event
       case RequestVote(args) => VoteRequest(st.src, st.at, args) in c.net
       case HeartBeat(args) => AppendRequest(st.src, st.at, args) in c.net
       case Start(command) => true
       case Tick => true
       case Batch => s.jobs != []
       case Commit => s.commitChnl != []
       case Send(peer) => 0 <= peer < |s.rdy| && s.rdy[peer] != []
       case AppendReplied(peer, sent, reply) => AppendResponse(peer, st.at, sent, reply) in c.net
       case Elect => !s.isLeader
       case VoteReplied(peer, term, reply) =>
         VoteResponse(peer, st.at, term, reply) in c.net && term in s.tallies && peer !in s.tallies[term].answered
       case Count(term) => term in s.tallies && s.tallies[term].open && s.tallies[term].ballots != []
       case TallyTimeout(term) => term in s.tallies
  }

  /** Of the steps that are due, a clean one: a leader batches and sends what is of its own term. */
  predicate CleanDue(c: Config, st: Step)
    requires Due(c, st)
  {
    var s := c.servers[st.at];
    && (st.event.Batch? ==> s.isLeader && forall k :: 0 <= k < BatchCount(s.jobs) ==> s.jobs[k].term == s.currentTerm)
    && (st.event.Send? && s.isLeader ==> s.rdy[st.event.peer][0].term == s.currentTerm)
  }

  /** A rejection that makes the server look at the position the follower ended at. */
  predicate LooksBack(s: Server, sent: AppendArgs, reply: AppendReply) {
    !reply.success && reply.term <= s.currentTerm && 1 < reply.lastEntry.index <= sent.prevLog.index
  }

  /** The head of the peer's queue is sent as it is, or extended with what the log has. */
  predicate SendsWithinLog(s: Server, peer: int)
    requires 0 <= peer < |s.rdy| == |s.nextIndex| && s.rdy[peer] != []
  {
    s.isLeader && s.rdy[peer][0].prevLog.index >= s.nextIndex[peer] ==> s.rdy[peer][0].prevLog.index < |s.logs|
  }

  /** Every job of the next batch but the first is numbered for one of the batch's slots. */
  predicate BatchFits(s: Server) {
    forall k :: 1 <= k < BatchCount(s.jobs) ==> |s.logs| <= s.jobs[k].index < |s.logs| + BatchCount(s.jobs)
  }

  // ---------------------------------------------------------------- what the queues keep

  /** A leader sends every peer something from position 1 on. */
  predicate NextOk(s: Server) {
    s.isLeader ==> forall p :: 0 <= p < |s.nextIndex| ==> s.nextIndex[p] >= 1
  }

  /** An answer belongs to a request and names a position. */
  predicate AnswerOk(c: Config, m: Message) {
    m.AppendResponse? ==>
      0 <= m.src < |c.servers| && AppendRequest(m.dst, m.src, m.append) in c.net && m.appendReply.lastEntry.index >= 0
  }

  ghost predicate QueueInv(c: Config) {
    && (forall i :: 0 <= i < |c.servers| ==> NextOk(c.servers[i]))
    && (forall m :: m in c.net ==> AnswerOk(c, m))
  }

  lemma ReplyKeepsNext(s: Server, peer: int, sent: AppendArgs, reply: AppendReply)
    requires AppendReplySafe(s, peer, sent, reply) && NextOk(s) && reply.lastEntry.index >= 0
    ensures NextOk(OnAppendReply(s, peer, sent, reply))
  {
  }

  lemma CountKeepsNext(s: Server, me: int, term: int)
    requires CountSafe(s, term) && NextOk(s) && s.logs != []
    ensures NextOk(OnCount(s, me, term))
  {
  }

  lemma HeartBeatEndsLeading(s: Server, args: AppendArgs)
    requires HeartBeatSafe(s, args)
    ensures var t := OnHeartBeat(s, args).0; t.nextIndex == s.nextIndex && (t.isLeader ==> s.isLeader)
  {
  }

  lemma EventKeepsNext(s: Server, me: int, e: Event)
    requires CanHandle(s, e) && NextOk(s) && s.logs != []
    requires e.AppendReplied? ==> e.appendReply.lastEntry.index >= 0
    ensures NextOk(Handle(s, me, e))
  {
    match e
    case HeartBeat(args) => HeartBeatEndsLeading(s, args);
    case Batch => assert OnBatch(s, me).nextIndex == s.nextIndex && OnBatch(s, me).isLeader == s.isLeader;
    case AppendReplied(peer, sent, reply) => ReplyKeepsNext(s, peer, sent, reply);
    case Count(term) => CountKeepsNext(s, me, term);
    case _ =>
  }

  /** The position a follower answers with is the last of a numbered log. */
  lemma AnswerNamesPosition(s: Server, args: AppendArgs)
    requires HeartBeatSafe(s, args) && GaplessStream(s) && GaplessStream(OnHeartBeat(s, args).0)
    ensures OnHeartBeat(s, args).1.lastEntry.index >= 0
  {
    if args.term >= s.currentTerm && Conflicts(s.logs, args.prevLog) {
      assert Last(RolledBack(s.logs, args.prevLog)).index >= 0;
    }
  }

  lemma SentAnswerIsOk(c: Config, st: Step, m: Message)
    requires Good(c, st) && m in Sends(c, st)
    ensures AnswerOk(Next(c, st), m)
  {
    if m.AppendResponse? {
      StepKeepsStreams(c, st);
      AnswerNamesPosition(c.servers[st.at], st.event.append);
    }
  }

  lemma ActorKeepsNext(c: Config, st: Step)
    requires Good(c, st) && QueueInv(c)
    ensures NextOk(Next(c, st).servers[st.at])
  {
    assert LogServerOk(c.leaderLogs, c.wins, st.at, c.servers[st.at]);
    if st.event.AppendReplied? {
      assert AnswerOk(c, AppendResponse(st.event.peer, st.at, st.event.sent, st.event.appendReply));
    }
    EventKeepsNext(c.servers[st.at], st.at, st.event);
  }

  lemma AnswerStaysOk(c: Config, st: Step, m: Message)
    requires Enabled(c, st) && AnswerOk(c, m)
    ensures AnswerOk(Next(c, st), m)
  {
  }

  lemma StepKeepsQueueInv(c: Config, st: Step)
    requires Good(c, st) && QueueInv(c)
    ensures QueueInv(Next(c, st))
  {
    ActorKeepsNext(c, st);
    forall m | m in Next(c, st).net
      ensures AnswerOk(Next(c, st), m)
    {
      if m in c.net {
        AnswerStaysOk(c, st, m);
      } else {
        SentAnswerIsOk(c, st, m);
      }
    }
  }

  // ---------------------------------------------------------------- every step that is due

  /** Sending is safe exactly when what is sent can be taken from the log. */
  lemma DueSendIsSafe(c: Config, st: Step)
    requires ElectionInv(c) && QueueInv(c) && Due(c, st) && st.event.Send?
    ensures |c.servers[st.at].rdy| == |c.servers[st.at].nextIndex|
    ensures SendSafe(c.servers[st.at], st.event.peer) <==> SendsWithinLog(c.servers[st.at], st.event.peer)
  {
    assert NextOk(c.servers[st.at]) && ServerOk(|c.servers|, c.grants, st.at, c.servers[st.at]);
  }

  /** What a leader has queued of its own term can be taken from its log. */
  lemma CleanSendIsWithinLog(c: Config, st: Step)
    requires ElectionInv(c) && LogInv(c) && CleanConfig(c)
    requires Due(c, st) && CleanDue(c, st) && st.event.Send?
    ensures |c.servers[st.at].rdy| == |c.servers[st.at].nextIndex|
    ensures SendsWithinLog(c.servers[st.at], st.event.peer)
  {
    var s := c.servers[st.at];
    assert LogServerOk(c.leaderLogs, c.wins, st.at, s) && ServerOk(|c.servers|, c.grants, st.at, s);
    if s.isLeader {
      LeaderIsUnrivalled(c, s.currentTerm, st.at);
      assert QueuedOk(c.wins, st.at, s, s.rdy[st.event.peer][0]);
    }
  }

  /** A batch stays in its slots exactly when its jobs fit. */
  lemma DueBatchIsSafe(c: Config, st: Step)
    requires LogInv(c) && Due(c, st) && st.event.Batch?
    ensures BatchSafe(c.servers[st.at]) <==> BatchFits(c.servers[st.at])
  {
    assert GaplessStream(c.servers[st.at]);
  }

  /** The leader's batch fits. */
  lemma CleanBatchFits(c: Config, st: Step)
    requires LogInv(c) && Due(c, st) && CleanDue(c, st) && st.event.Batch?
    ensures BatchFits(c.servers[st.at])
  {
    var s := c.servers[st.at];
    assert LogServerOk(c.leaderLogs, c.wins, st.at, s);
    assert s.jobs[0].term == s.currentTerm;
  }

  /** Reading an answer is safe exactly when the server looks back, if at all, within its log. */
  lemma DueReplyIsSafe(c: Config, st: Step)
    requires ElectionInv(c) && LogInv(c) && QueueInv(c) && Due(c, st) && st.event.AppendReplied?
    ensures var s := c.servers[st.at];
      AppendReplySafe(s, st.event.peer, st.event.sent, st.event.appendReply) <==>
        (LooksBack(s, st.event.sent, st.event.appendReply) ==> st.event.appendReply.lastEntry.index < |s.logs|)
  {
    var s, e := c.servers[st.at], st.event;
    var m := AppendResponse(e.peer, st.at, e.sent, e.appendReply);
    assert AnswerOk(c, m);
    assert AppendOk(c.leaderLogs, c.wins, st.at, e.peer, e.sent);
    assert LogServerOk(c.leaderLogs, c.wins, st.at, s) && ServerOk(|c.servers|, c.grants, st.at, s);
    assert s.logs[0].term < e.sent.term;
  }

  lemma DueHeartBeatIsSafe(c: Config, st: Step)
    requires LogInv(c) && Due(c, st) && st.event.HeartBeat?
    ensures HeartBeatSafe(c.servers[st.at], st.event.append)
  {
    var args := st.event.append;
    assert AppendOk(c.leaderLogs, c.wins, st.src, st.at, args);
    HeartBeatMerge.SegmentIsContiguous(c.leaderLogs[args.term], args);
    HeartBeatKeepsStream(c.servers[st.at], args);
  }

  /** The condition under which the code of a due step stays within bounds. */
  predicate WithinBounds(c: Config, st: Step)
    requires Due(c, st) && |c.servers[st.at].rdy| == |c.servers[st.at].nextIndex|
  {
    var s := c.servers[st.at];
    match st.event
    case Batch => BatchFits(s)
    case Send(peer) => SendsWithinLog(s, peer)
    case AppendReplied(peer, sent, reply) => LooksBack(s, sent, reply) ==> reply.lastEntry.index < |s.logs|
    case _ => true
  }

  lemma DueIsEnabled(c: Config, st: Step)
    requires ElectionInv(c) && LogInv(c) && QueueInv(c) && Due(c, st)
    ensures |c.servers[st.at].rdy| == |c.servers[st.at].nextIndex|
    ensures Enabled(c, st) <==> WithinBounds(c, st)
  {
    var s := c.servers[st.at];
    assert GaplessStream(s) && ServerOk(|c.servers|, c.grants, st.at, s);
    match st.event
    case HeartBeat(args) => DueHeartBeatIsSafe(c, st);
    case Batch => DueBatchIsSafe(c, st);
    case Send(peer) => DueSendIsSafe(c, st);
    case AppendReplied(peer, sent, reply) => DueReplyIsSafe(c, st);
    case _ =>
  }

  // ---------------------------------------------------------------- the jobs of one tenure

  /** Jobs of one term are numbered consecutively, and new ones will be. */
  predicate TenuresConsecutive(s: Server) {
    && (forall j, k :: 0 <= j < k < |s.jobs| && s.jobs[j].term == s.jobs[k].term ==>
          s.jobs[k].index == s.jobs[j].index + k - j)
    && (s.jobs != [] && Last(s.jobs).term == s.currentTerm ==> s.logidx == Last(s.jobs).index)
  }

  lemma StartKeepsConsecutive(s: Server, wins: set<Win>, i: int, command: Command)
    requires TenuresConsecutive(s) && JobsOk(wins, i, s)
    ensures TenuresConsecutive(OnStart(s, command).0)
  {
    var t := OnStart(s, command).0;
    forall j, k | 0 <= j < k < |t.jobs| && t.jobs[j].term == t.jobs[k].term
      ensures t.jobs[k].index == t.jobs[j].index + k - j
    {
      if k == |s.jobs| {
        assert j < k - 1 ==> s.jobs[j].term <= s.jobs[k - 1].term;
      }
    }
  }

  lemma BatchKeepsConsecutive(s: Server, me: int)
    requires TenuresConsecutive(s) && BatchSafe(s)
    ensures TenuresConsecutive(OnBatch(s, me))
  {
    var n := BatchCount(s.jobs);
    assert OnBatch(s, me).jobs == s.jobs[n..] && OnBatch(s, me).logidx == s.logidx;
    assert OnBatch(s, me).currentTerm == s.currentTerm;
    assert s.jobs[n..] != [] ==> Last(s.jobs[n..]) == Last(s.jobs);
  }

  /** Queue and logidx are as before, in the same term or a later one. */
  lemma SameQueueKeepsConsecutive(s: Server, t: Server, wins: set<Win>, i: int)
    requires TenuresConsecutive(s) && JobsOk(wins, i, s)
    requires t.jobs == s.jobs && t.currentTerm >= s.currentTerm
    requires t.currentTerm == s.currentTerm ==> t.logidx == s.logidx
    ensures TenuresConsecutive(t)
  {
  }

  lemma OtherEventsKeepJobs(s: Server, me: int, e: Event)
    requires CanHandle(s, e) && !e.Start? && !e.Batch? && me != -1 && (e.RequestVote? ==> e.vote.id != -1)
    ensures var t := Handle(s, me, e);
      && t.jobs == s.jobs && t.currentTerm >= s.currentTerm
      && (!(e.HeartBeat? && e.append.term >= s.currentTerm) ==> t.logidx == s.logidx)
  {
    EventKeeps(s, me, e);
    match e
    case HeartBeat(args) => HeartBeatLeavesQueues(s, args);
    case AppendReplied(peer, sent, reply) => AppendReplyKeepsLogState(s, peer, sent, reply);
    case Count(term) => assert OnCount(s, me, term).jobs == s.jobs && OnCount(s, me, term).logidx == s.logidx;
    case _ =>
  }

  lemma HeartBeatKeepsConsecutive(s: Server, wins: set<Win>, i: int, args: AppendArgs)
    requires HeartBeatSafe(s, args) && TenuresConsecutive(s) && JobsOk(wins, i, s) && Win(args.term, i) !in wins
    ensures TenuresConsecutive(OnHeartBeat(s, args).0)
  {
    HeartBeatLeavesQueues(s, args);
    if args.term >= s.currentTerm {
      assert OnHeartBeat(s, args).0.currentTerm == args.term;
      assert s.jobs != [] ==> Win(Last(s.jobs).term, i) in wins;
    } else {
      assert OnHeartBeat(s, args).0 == s;
    }
  }

  lemma ActorKeepsConsecutive(c: Config, st: Step)
    requires Good(c, st) && TenuresConsecutive(c.servers[st.at])
    ensures TenuresConsecutive(Next(c, st).servers[st.at])
  {
    var s := c.servers[st.at];
    assert LogServerOk(c.leaderLogs, c.wins, st.at, s);
    match st.event
    case Start(command) => StartKeepsConsecutive(s, c.wins, st.at, command);
    case Batch => BatchKeepsConsecutive(s, st.at);
    case HeartBeat(args) =>
      HeartBeatIsForeign(c, st);
      HeartBeatKeepsConsecutive(s, c.wins, st.at, args);
    case _ =>
      OtherEventsKeepJobs(s, st.at, st.event);
      SameQueueKeepsConsecutive(s, Handle(s, st.at, st.event), c.wins, st.at);
  }

  lemma RunStepKeepsConsecutive(n: nat, trace: seq<Config>, steps: seq<Step>, k: nat, i: int)
    requires CleanRun(n, trace, steps) && k < |steps| && 0 <= i < n
    requires |trace[k].servers| == n && TenuresConsecutive(trace[k].servers[i])
    ensures |trace[k + 1].servers| == n && TenuresConsecutive(trace[k + 1].servers[i])
  {
    CleanStepsAreGood(n, trace, steps, k);
    if i == steps[k].at {
      ActorKeepsConsecutive(trace[k], steps[k]);
    }
  }

  lemma {:induction false} ConsecutiveHolds(n: nat, trace: seq<Config>, steps: seq<Step>, k: nat, i: int)
    requires CleanRun(n, trace, steps) && k < |trace| && 0 <= i < n
    ensures |trace[k].servers| == n && TenuresConsecutive(trace[k].servers[i])
    decreases k
  {
    if k == 0 {
    } else {
      ConsecutiveHolds(n, trace, steps, k - 1, i);
      RunStepKeepsConsecutive(n, trace, steps, k - 1, i);
    }
  }

  /** A batch of one tenure's jobs fits exactly when it is of one job, or begins at the end of the
      log or one before. */
  lemma OneTenureFits(s: Server)
    requires TenuresConsecutive(s) && s.jobs != []
    requires forall k :: 0 <= k < BatchCount(s.jobs) ==> s.jobs[k].term == s.jobs[0].term
    ensures BatchFits(s) <==> BatchCount(s.jobs) == 1 || |s.logs| - 1 <= s.jobs[0].index <= |s.logs|
  {
    var count := BatchCount(s.jobs);
    forall k | 1 <= k < count
      ensures s.jobs[k].index == s.jobs[0].index + k
    {
    }
    if BatchFits(s) && count > 1 {
      assert |s.logs| <= s.jobs[1].index && s.jobs[count - 1].index < |s.logs| + count;
    }
  }

  // ---------------------------------------------------------------- the queues of a tenure

  /** What is queued, or will be when an election is won, starts within the log. */
  predicate QueuesHeld(s: Server) {
    && (forall p, k :: 0 <= p < |s.rdy| && 0 <= k < |s.rdy[p]| ==> s.rdy[p][k].prevLog.index < |s.logs|)
    && (forall term :: term in s.tallies ==> s.tallies[term].lastLog.index < |s.logs|)
  }

  lemma TickKeepsHeld(s: Server, me: int)
    requires GoodLog(s.logs) && QueuesHeld(s)
    ensures QueuesHeld(OnTick(s, me))
  {
  }

  lemma BatchKeepsHeld(s: Server, me: int)
    requires BatchSafe(s) && GoodLog(s.logs) && QueuesHeld(s)
    ensures QueuesHeld(OnBatch(s, me))
  {
    assert |OnBatch(s, me).logs| >= |s.logs|;
  }

  lemma CountKeepsHeld(s: Server, me: int, term: int)
    requires CountSafe(s, term) && QueuesHeld(s)
    ensures QueuesHeld(OnCount(s, me, term))
  {
  }

  lemma SendKeepsHeld(s: Server, peer: int)
    requires SendSafe(s, peer) && QueuesHeld(s)
    ensures QueuesHeld(OnSend(s, peer).0)
  {
    var t := OnSend(s, peer).0;
    forall p, k | 0 <= p < |t.rdy| && 0 <= k < |t.rdy[p]|
      ensures t.rdy[p][k].prevLog.index < |t.logs|
    {
      assert t.rdy[p][k] == s.rdy[p][if p == peer then k + 1 else k];
    }
  }

  lemma ElectionKeepsHeld(s: Server, me: int)
    requires GoodLog(s.logs) && QueuesHeld(s)
    ensures QueuesHeld(OnElection(s, me).0)
  {
  }

  lemma VoteReplyKeepsHeld(s: Server, peer: int, term: int, reply: VoteReply)
    requires term in s.tallies && QueuesHeld(s)
    ensures QueuesHeld(OnVoteReply(s, peer, term, reply))
  {
  }

  lemma EventKeepsHeld(s: Server, me: int, e: Event)
    requires CanHandle(s, e) && GoodLog(s.logs) && QueuesHeld(s) && s.logs <= Handle(s, me, e).logs
    ensures QueuesHeld(Handle(s, me, e))
  {
    match e
    case HeartBeat(args) => HeartBeatLeavesQueues(s, args);
    case Tick => TickKeepsHeld(s, me);
    case Batch => BatchKeepsHeld(s, me);
    case Send(peer) => SendKeepsHeld(s, peer);
    case AppendReplied(peer, sent, reply) => AppendReplyKeepsLogState(s, peer, sent, reply);
    case Count(term) => CountKeepsHeld(s, me, term);
    case RequestVote(args) => assert OnRequestVote(s, args).0.logs == s.logs;
    case Elect => ElectionKeepsHeld(s, me);
    case VoteReplied(peer, term, reply) => VoteReplyKeepsHeld(s, peer, term, reply);
    case _ =>
  }

  /** In a tenure only the leader has jobs, and they continue its log. */
  ghost predicate TenureQueuesOk(c: Config, l: int)
    requires 0 <= l < |c.servers|
  {
    && QueueContinuesLog(c.servers[l])
    && (forall i :: 0 <= i < |c.servers| ==> QueuesHeld(c.servers[i]) && (i != l ==> c.servers[i].jobs == []))
  }

  /** A server other than the leader is not flagged leader, so Start queues nothing. */
  lemma FollowerQueuesNothing(c: Config, st: Step, term: int, l: int)
    requires Steady(c, st, term, l) && st.at != l && c.servers[st.at].jobs == []
    ensures Next(c, st).servers[st.at].jobs == []
  {
    OnlyTheLeaderLeads(c, st, term, l);
    if !st.event.Start? {
      OtherEventsKeepJobs(c.servers[st.at], st.at, st.event);
    }
  }

  lemma LeaderQueueContinues(c: Config, st: Step, term: int, l: int)
    requires Steady(c, st, term, l) && st.at == l && QueueContinuesLog(c.servers[l])
    ensures QueueContinuesLog(Next(c, st).servers[l])
  {
    OnlyTheLeaderLeads(c, st, term, l);
    EventConserves(c.servers[l], l, st.event);
  }

  lemma ActorQueuesHeld(c: Config, st: Step, term: int, l: int)
    requires Steady(c, st, term, l) && QueuesHeld(c.servers[st.at])
    ensures QueuesHeld(Next(c, st).servers[st.at])
  {
    StepKeepsApplied(c, st, term, l);
    assert GaplessStream(c.servers[st.at]);
    EventKeepsHeld(c.servers[st.at], st.at, st.event);
  }

  lemma StepKeepsTenureQueues(c: Config, st: Step, term: int, l: int)
    requires Steady(c, st, term, l) && TenureQueuesOk(c, l)
    ensures TenureQueuesOk(Next(c, st), l)
  {
    forall i | 0 <= i < |c.servers|
      ensures QueuesHeld(Next(c, st).servers[i]) && (i != l ==> Next(c, st).servers[i].jobs == [])
      ensures i == l ==> QueueContinuesLog(Next(c, st).servers[i])
    {
      if i == st.at {
        ActorKeepsTenureQueue(c, st, term, l);
      }
    }
  }

  lemma ActorKeepsTenureQueue(c: Config, st: Step, term: int, l: int)
    requires Steady(c, st, term, l) && TenureQueuesOk(c, l)
    ensures var t := Next(c, st).servers[st.at];
      QueuesHeld(t) && if st.at == l then QueueContinuesLog(t) else t.jobs == []
  {
    ActorQueuesHeld(c, st, term, l);
    if st.at == l {
      LeaderQueueContinues(c, st, term, l);
    } else {
      FollowerQueuesNothing(c, st, term, l);
    }
  }

  lemma RunStepKeepsTenureQueues(n: nat, trace: seq<Config>, steps: seq<Step>, k: nat, term: int, l: int)
    requires CleanRun(n, trace, steps) && k < |steps| && SoleWinner(trace[k + 1], term, l)
    requires SoleWinner(trace[k], term, l) && TenureQueuesOk(trace[k], l)
    ensures TenureQueuesOk(trace[k + 1], l)
  {
    CleanStepsAreGood(n, trace, steps, k);
    TenureHolds(n, trace, steps, k, term, l);
    StepKeepsTenureQueues(trace[k], steps[k], term, l);
  }

  lemma FreshTenureQueues(n: nat, l: int)
    requires 0 <= l < n
    ensures TenureQueuesOk(Init(n), l)
  {
  }

  lemma {:induction false} TenureQueuesHold(n: nat, trace: seq<Config>, steps: seq<Step>, k: nat, term: int, l: int)
    requires CleanRun(n, trace, steps) && k < |trace| && SoleWinner(trace[k], term, l)
    ensures TenureQueuesOk(trace[k], l)
    decreases k
  {
    if k == 0 {
      CleanRunKeepsLogInv(n, trace, steps, 0);
      FreshTenureQueues(n, l);
    } else {
      RunSoleWinnerBefore(n, trace, steps, k - 1, term, l);
      TenureQueuesHold(n, trace, steps, k - 1, term, l);
      RunStepKeepsTenureQueues(n, trace, steps, k - 1, term, l);
    }
  }

  lemma RunSoleWinnerBefore(n: nat, trace: seq<Config>, steps: seq<Step>, k: nat, term: int, l: int)
    requires CleanRun(n, trace, steps) && k < |steps| && SoleWinner(trace[k + 1], term, l)
    ensures SoleWinner(trace[k], term, l)
  {
    CleanStepsAreGood(n, trace, steps, k);
    SoleWinnerBefore(trace[k], steps[k], term, l);
  }

  /** Within the tenure the only server that reads answers still has all it ever sent. */
  lemma TenureLooksBackWithinLog(c: Config, st: Step, term: int, l: int)
    requires ElectionInv(c) && LogInv(c) && QueueInv(c) && TenureInv(c, term, l)
    requires Due(c, st) && st.event.AppendReplied?
    ensures st.event.sent.prevLog.index < |c.servers[st.at].logs|
  {
    var e := st.event;
    assert AnswerOk(c, AppendResponse(e.peer, st.at, e.sent, e.appendReply));
    assert AppendOk(c.leaderLogs, c.wins, st.at, e.peer, e.sent);
    assert Win(e.sent.term, st.at) == Win(term, l);
  }

  // ---------------------------------------------------------------- whole runs

  lemma FreshQueues(n: nat)
    ensures QueueInv(Init(n))
  {
  }

  lemma RunStepKeepsQueueInv(n: nat, trace: seq<Config>, steps: seq<Step>, k: nat)
    requires CleanRun(n, trace, steps) && k < |steps| && QueueInv(trace[k])
    ensures QueueInv(trace[k + 1])
  {
    CleanStepsAreGood(n, trace, steps, k);
    StepKeepsQueueInv(trace[k], steps[k]);
  }

  lemma {:induction false} QueueInvHolds(n: nat, trace: seq<Config>, steps: seq<Step>, k: nat)
    requires CleanRun(n, trace, steps) && k < |trace|
    ensures QueueInv(trace[k])
    decreases k
  {
    if k == 0 {
      FreshQueues(n);
    } else {
      QueueInvHolds(n, trace, steps, k - 1);
      RunStepKeepsQueueInv(n, trace, steps, k - 1);
    }
  }

  /** At any point of any clean run, exactly when a step that is due stays within bounds: a batch
      if its jobs fit its slots, a send if it is taken from the log, the reading of an answer if
      it looks back, if at all, within the log, and any other step always. Clean batches and sends
      do. */
  lemma DueStepsWithinBounds(n: nat, trace: seq<Config>, steps: seq<Step>, k: nat, st: Step)
    requires CleanRun(n, trace, steps) && k < |trace| && Due(trace[k], st)
    ensures |trace[k].servers[st.at].rdy| == |trace[k].servers[st.at].nextIndex|
    ensures Enabled(trace[k], st) <==> WithinBounds(trace[k], st)
    ensures CleanDue(trace[k], st) && !st.event.AppendReplied? ==> Enabled(trace[k], st)
  {
    CleanRunKeepsLogInv(n, trace, steps, k);
    QueueInvHolds(n, trace, steps, k);
    DueIsEnabled(trace[k], st);
    if CleanDue(trace[k], st) {
      match st.event
      case Batch => CleanBatchFits(trace[k], st);
      case Send(peer) => CleanSendIsWithinLog(trace[k], st);
      case _ =>
    }
  }

  /** At any server of any clean run a due batch whose jobs are all of one tenure is in range if
      and only if it is of one job, or begins at the end of the log or one before. */
  lemma DueBatchOfOneTenure(n: nat, trace: seq<Config>, steps: seq<Step>, k: nat, i: int)
    requires CleanRun(n, trace, steps) && k < |trace| && 0 <= i < n && |trace[k].servers| == n
    requires trace[k].servers[i].jobs != []
    requires var jobs := trace[k].servers[i].jobs;
      forall m :: 0 <= m < BatchCount(jobs) ==> jobs[m].term == jobs[0].term
    ensures var s := trace[k].servers[i];
      BatchSafe(s) <==> BatchCount(s.jobs) == 1 || |s.logs| - 1 <= s.jobs[0].index <= |s.logs|
  {
    CleanRunKeepsLogInv(n, trace, steps, k);
    ConsecutiveHolds(n, trace, steps, k, i);
    DueBatchIsSafe(trace[k], Step(i, Batch, 0));
    OneTenureFits(trace[k].servers[i]);
  }

  /** In a single-leader tenure nothing that is due goes out of bounds, clean or not: every message
      in the network, every queued argument, job and acknowledgement can be handled. */
  lemma TenureNeverPanics(n: nat, trace: seq<Config>, steps: seq<Step>, k: nat, term: int, l: int, st: Step)
    requires CleanRun(n, trace, steps) && k < |trace| && SoleWinner(trace[k], term, l) && Due(trace[k], st)
    ensures Enabled(trace[k], st)
  {
    CleanRunKeepsLogInv(n, trace, steps, k);
    QueueInvHolds(n, trace, steps, k);
    TenureHolds(n, trace, steps, k, term, l);
    TenureQueuesHold(n, trace, steps, k, term, l);
    DueIsEnabled(trace[k], st);
    TenureIsWithinBounds(trace[k], st, term, l);
  }

  lemma TenureIsWithinBounds(c: Config, st: Step, term: int, l: int)
    requires ElectionInv(c) && LogInv(c) && QueueInv(c) && TenureInv(c, term, l) && TenureQueuesOk(c, l)
    requires Due(c, st) && |c.servers[st.at].rdy| == |c.servers[st.at].nextIndex|
    ensures WithinBounds(c, st)
  {
    assert QueuesHeld(c.servers[st.at]);
    match st.event
    case Batch => assert st.at == l && forall k :: 0 <= k < |c.servers[l].jobs| ==>
                           c.servers[l].jobs[k].index == |c.servers[l].logs| + k;
    case AppendReplied(peer, sent, reply) => TenureLooksBackWithinLog(c, st, term, l);
    case _ =>
  }
}
