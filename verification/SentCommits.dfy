/** Where the commit index a leader announces lies: in a single-leader tenure always within the
    segment it sends, which is when HeartBeatMerge shows that followers apply only what the
    leader has. DivergentApply is a run, not clean, in which it does not. */
module SentCommits {
  import opened RaftTypes
  import opened RaftHandlers
  import opened RaftSteps
  import opened HeartBeatMerge
  import opened Cluster
  import opened LogMatching
  import opened Tenure

  predicate WithinReach(a: AppendArgs) {
    a.leaderCommitIdx < Reach(a)
  }

  /** What the server has queued, or will queue when it wins an election, is within reach. */
  ghost predicate QueuesWithinReach(s: Server) {
    && (forall p, k :: 0 <= p < |s.rdy| && 0 <= k < |s.rdy[p]| ==> WithinReach(s.rdy[p][k]))
    && (forall term :: term in s.tallies ==> s.tallies[term].commitIdx <= s.tallies[term].lastLog.index)
  }

  ghost predicate AllWithinReach(c: Config) {
    && (forall i :: 0 <= i < |c.servers| ==> QueuesWithinReach(c.servers[i]))
    && (forall m :: m in c.net && m.AppendRequest? ==> WithinReach(m.append))
  }

  /** The server's log reaches past its commit index. */
  predicate HoldsCommit(s: Server) {
    GoodLog(s.logs) && s.commitIdx < |s.logs|
  }

  lemma TickStaysWithin(s: Server, me: int)
    requires HoldsCommit(s) && QueuesWithinReach(s)
    ensures QueuesWithinReach(OnTick(s, me))
  {
  }

  lemma BatchStaysWithin(s: Server, me: int)
    requires BatchSafe(s) && HoldsCommit(s) && QueuesWithinReach(s)
    ensures QueuesWithinReach(OnBatch(s, me))
  {
  }

  lemma CountStaysWithin(s: Server, me: int, term: int)
    requires CountSafe(s, term) && QueuesWithinReach(s)
    ensures QueuesWithinReach(OnCount(s, me, term))
  {
  }

  lemma SendStaysWithin(s: Server, peer: int)
    requires SendSafe(s, peer) && HoldsCommit(s) && QueuesWithinReach(s)
    ensures QueuesWithinReach(OnSend(s, peer).0)
    ensures OnSend(s, peer).1.Some? ==> WithinReach(OnSend(s, peer).1.value)
  {
    var t := OnSend(s, peer).0;
    forall p, k | 0 <= p < |t.rdy| && 0 <= k < |t.rdy[p]|
      ensures WithinReach(t.rdy[p][k])
    {
      assert t.rdy[p][k] == s.rdy[p][if p == peer then k + 1 else k];
    }
    assert WithinReach(s.rdy[peer][0]);
  }

  lemma ReplyStaysWithin(s: Server, peer: int, sent: AppendArgs, reply: AppendReply)
    requires AppendReplySafe(s, peer, sent, reply) && QueuesWithinReach(s)
    ensures QueuesWithinReach(OnAppendReply(s, peer, sent, reply))
  {
  }

  lemma EventStaysWithin(s: Server, me: int, e: Event)
    requires CanHandle(s, e) && HoldsCommit(s) && QueuesWithinReach(s)
    ensures QueuesWithinReach(Handle(s, me, e))
  {
    match e
    case HeartBeat(args) => HeartBeatLeavesQueues(s, args);
    case Tick => TickStaysWithin(s, me);
    case Batch => BatchStaysWithin(s, me);
    case Send(peer) => SendStaysWithin(s, peer);
    case AppendReplied(peer, sent, reply) => ReplyStaysWithin(s, peer, sent, reply);
    case Count(term) => CountStaysWithin(s, me, term);
    case _ =>
  }

  lemma MembersHoldCommit(c: Config, term: int, l: int, i: int)
    requires LogInv(c) && TenureInv(c, term, l) && 0 <= i < |c.servers|
    ensures HoldsCommit(c.servers[i])
  {
    assert AppliedOk(c.servers[i], c.servers[l].commitIdx) && LogServerOk(c.leaderLogs, c.wins, i, c.servers[i]);
  }

  lemma SentStaysWithin(c: Config, st: Step, m: Message)
    requires Enabled(c, st) && HoldsCommit(c.servers[st.at]) && QueuesWithinReach(c.servers[st.at])
    requires m in Sends(c, st) && m.AppendRequest?
    ensures WithinReach(m.append)
  {
    SendStaysWithin(c.servers[st.at], st.event.peer);
  }

  lemma NetStaysWithin(c: Config, st: Step, m: Message)
    requires Enabled(c, st) && HoldsCommit(c.servers[st.at]) && AllWithinReach(c)
    requires m in Next(c, st).net && m.AppendRequest?
    ensures WithinReach(m.append)
  {
    if m !in c.net {
      SentStaysWithin(c, st, m);
    }
  }

  lemma ServerStaysWithin(c: Config, st: Step, i: int)
    requires Enabled(c, st) && HoldsCommit(c.servers[st.at]) && AllWithinReach(c) && 0 <= i < |c.servers|
    ensures QueuesWithinReach(Next(c, st).servers[i])
  {
    if i == st.at {
      EventStaysWithin(c.servers[i], i, st.event);
    }
  }

  lemma StepStaysWithin(c: Config, st: Step)
    requires Enabled(c, st) && HoldsCommit(c.servers[st.at]) && AllWithinReach(c)
    ensures AllWithinReach(Next(c, st))
  {
    forall i | 0 <= i < |c.servers|
      ensures QueuesWithinReach(Next(c, st).servers[i])
    {
      ServerStaysWithin(c, st, i);
    }
    forall m | m in Next(c, st).net && m.AppendRequest?
      ensures WithinReach(m.append)
    {
      NetStaysWithin(c, st, m);
    }
  }

  lemma FreshClusterIsWithin(n: nat)
    ensures AllWithinReach(Init(n))
  {
  }

  lemma {:induction false} TenureStaysWithin(
    n: nat, trace: seq<Config>, steps: seq<Step>, k: nat, term: int, l: int)
    requires CleanRun(n, trace, steps) && k < |trace| && SoleWinner(trace[k], term, l)
    ensures AllWithinReach(trace[k])
    decreases k
  {
    if k == 0 {
      FreshClusterIsWithin(n);
    } else {
      CleanStepsAreGood(n, trace, steps, k - 1);
      SoleWinnerBefore(trace[k - 1], steps[k - 1], term, l);
      TenureStaysWithin(n, trace, steps, k - 1, term, l);
      TenureHolds(n, trace, steps, k - 1, term, l);
      MembersHoldCommit(trace[k - 1], term, l, steps[k - 1].at);
      StepStaysWithin(trace[k - 1], steps[k - 1]);
    }
  }

  /** In a single-leader tenure every request in the network is one that any follower whose log
      matches the leader's may accept: it applies only entries the leader has. */
  lemma RequestsApplyOnlyLeaderEntries(
    n: nat, trace: seq<Config>, steps: seq<Step>, k: nat, term: int, l: int, src: int, dst: int, a: AppendArgs)
    requires CleanRun(n, trace, steps) && k < |trace| && SoleWinner(trace[k], term, l)
    requires AppendRequest(src, dst, a) in trace[k].net
    ensures src == l && a.term == term
    ensures forall s :: MayReceive(s, trace[k].servers[l].logs, a) ==>
              AcceptedSafely(s, trace[k].servers[l].logs, a)
  {
    CleanRunKeepsLogInv(n, trace, steps, k);
    TenureHolds(n, trace, steps, k, term, l);
    TenureStaysWithin(n, trace, steps, k, term, l);
    var c := trace[k];
    assert AppendOk(c.leaderLogs, c.wins, src, dst, a) && Win(a.term, src) == Win(term, l);
    assert WithinReach(a);
    SoleWinnerPinsLogs(c, term, l, l);
    AppliesOnlyLeaderEntriesExactly(c.servers[l].logs, a);
  }
}
