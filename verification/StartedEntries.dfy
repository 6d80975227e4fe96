/** What an index and a term that Start returned stand for, across the cluster: in a clean run
    any entry with that index and term, in any log and at any later time, is the command started. */
module StartedEntries {
  import opened RaftTypes
  import opened RaftHandlers
  import opened RaftSteps
  import opened Cluster
  import opened ElectionSafety
  import opened LogMatching

  /** In the leader's term the entry is at its place in log or queue; or the queue begins with a
      job of an earlier term, which no clean batch will take. */
  predicate QueuedFor(s: Server, e: Entry) {
    || (s.jobs != [] && s.jobs[0].term < e.term)
    || (e.index < |s.logs| + |s.jobs| && (e.index >= |s.logs| ==> s.jobs[e.index - |s.logs|] == e))
  }

  /** No other command of the entry's term has its index. */
  predicate Written(log: seq<Entry>, e: Entry) {
    0 <= e.index < |log| && log[e.index].term == e.term ==> log[e.index] == e
  }

  ghost predicate Claimed(c: Config, i: int, e: Entry) {
    && 0 <= i < |c.servers| && Win(e.term, i) in c.wins && e.term in c.leaderLogs
    && 0 <= e.index && e.term <= c.servers[i].currentTerm
    && Written(c.leaderLogs[e.term], e)
    && (c.servers[i].currentTerm == e.term ==> QueuedFor(c.servers[i], e))
  }

  // ---------------------------------------------------------------- logidx is not behind the log

  predicate IndexOk(s: Server) {
    s.logidx >= |s.logs| - 1
  }

  lemma HeartBeatSetsIndex(s: Server, args: AppendArgs)
    requires HeartBeatSafe(s, args)
    ensures var t := OnHeartBeat(s, args).0;
      t.logs != [] && (t.logidx == Last(t.logs).index || (t.logidx == s.logidx && t.logs == s.logs))
  {
  }

  /** Apart from heartbeats and batches no event changes the log or lowers logidx. */
  lemma OtherEventsKeepIndex(s: Server, me: int, e: Event)
    requires CanHandle(s, e) && !e.HeartBeat? && !e.Batch?
    ensures var t := Handle(s, me, e); t.logs == s.logs && t.logidx >= s.logidx
  {
    match e
    case Count(term) => assert OnCount(s, me, term).logs == s.logs && OnCount(s, me, term).logidx == s.logidx;
    case _ =>
  }

  lemma ActorKeepsIndexOk(c: Config, st: Step)
    requires Good(c, st) && IndexOk(c.servers[st.at])
    ensures IndexOk(Next(c, st).servers[st.at])
  {
    var s := c.servers[st.at];
    assert LogServerOk(c.leaderLogs, c.wins, st.at, s);
    if st.event.HeartBeat? {
      StepKeepsStreams(c, st);
      HeartBeatSetsIndex(s, st.event.append);
    } else if st.event.Batch? {
      BatchExtends(c.leaderLogs, c.wins, st.at, s);
      assert s.jobs[0].term == s.currentTerm;
    } else {
      OtherEventsKeepIndex(s, st.at, st.event);
    }
  }

  lemma {:induction false} IndicesHold(n: nat, trace: seq<Config>, steps: seq<Step>, k: nat, i: int)
    requires CleanRun(n, trace, steps) && k < |trace| && 0 <= i < n
    ensures |trace[k].servers| == n && IndexOk(trace[k].servers[i])
    decreases k
  {
    if k == 0 {
    } else {
      IndicesHold(n, trace, steps, k - 1, i);
      StepKeepsIndexOk(n, trace, steps, k - 1, i);
    }
  }

  lemma StepKeepsIndexOk(n: nat, trace: seq<Config>, steps: seq<Step>, k: nat, i: int)
    requires CleanRun(n, trace, steps) && k < |steps| && 0 <= i < n
    requires |trace[k].servers| == n && IndexOk(trace[k].servers[i])
    ensures |trace[k + 1].servers| == n && IndexOk(trace[k + 1].servers[i])
  {
    CleanStepsAreGood(n, trace, steps, k);
    if i == steps[k].at {
      ActorKeepsIndexOk(trace[k], steps[k]);
    }
  }

  // ---------------------------------------------------------------- one step

  lemma StartQueues(s: Server, wins: set<Win>, i: int, command: Command)
    requires JobsOk(wins, i, s) && s.isLeader
    ensures var (t, reply) := OnStart(s, command);
      QueuedFor(t, Entry(reply.index, reply.term, command))
  {
  }

  /** Start claims an index past everything the leader has. */
  lemma StartClaims(c: Config, st: Step)
    requires Good(c, st) && IndexOk(c.servers[st.at]) && st.event.Start? && c.servers[st.at].isLeader
    ensures var reply := OnStart(c.servers[st.at], st.event.command).1;
      Claimed(Next(c, st), st.at, Entry(reply.index, reply.term, st.event.command))
  {
    assert LogServerOk(c.leaderLogs, c.wins, st.at, c.servers[st.at]);
    StartQueues(c.servers[st.at], c.wins, st.at, st.event.command);
  }

  /** A clean batch puts the entry where it was claimed. */
  lemma BatchWrites(s: Server, me: int, e: Entry)
    requires BatchSafe(s) && QueuedFor(s, e) && Written(s.logs, e) && e.index >= 0
    requires s.jobs[0].term >= e.term && OnBatch(s, me).logs == s.logs + s.jobs[..BatchCount(s.jobs)]
    ensures QueuedFor(OnBatch(s, me), e) && Written(OnBatch(s, me).logs, e)
  {
  }

  /** The batch is the claiming leader's own, of its own term. */
  lemma ClaimantBatches(c: Config, st: Step, i: int, e: Entry)
    requires Good(c, st) && Claimed(c, i, e) && st.event.Batch? && c.servers[st.at].currentTerm == e.term
    ensures st.at == i && Written(c.servers[i].logs, e) && c.servers[i].jobs[0].term == e.term
    ensures OnBatch(c.servers[i], i).logs == c.servers[i].logs + c.servers[i].jobs[..BatchCount(c.servers[i].jobs)]
  {
    LeaderIsUnrivalled(c, e.term, i);
    assert Win(c.servers[st.at].currentTerm, st.at) in c.wins;
    assert LogServerOk(c.leaderLogs, c.wins, st.at, c.servers[st.at]);
    BatchExtends(c.leaderLogs, c.wins, st.at, c.servers[st.at]);
    assert c.servers[st.at].jobs[0].term == c.servers[st.at].currentTerm;
  }

  lemma LeaderBatchKeepsClaim(c: Config, st: Step, i: int, e: Entry)
    requires Good(c, st) && Claimed(c, i, e) && st.event.Batch? && c.servers[st.at].currentTerm == e.term
    ensures st.at == i && Claimed(Next(c, st), i, e)
  {
    ClaimantBatches(c, st, i, e);
    BatchWrites(c.servers[i], i, e);
    BatchKeepsTerm(c.servers[i], i);
  }

  lemma BatchKeepsTerm(s: Server, me: int)
    requires BatchSafe(s)
    ensures OnBatch(s, me).currentTerm == s.currentTerm
  {
  }

  /** Other steps leave the log of the term alone. */
  lemma TermLogIsKept(c: Config, st: Step, i: int, e: Entry)
    requires Good(c, st) && Claimed(c, i, e) && !(st.event.Batch? && c.servers[st.at].currentTerm == e.term)
    ensures e.term in Next(c, st).leaderLogs && Next(c, st).leaderLogs[e.term] == c.leaderLogs[e.term]
  {
    if Winning(c, st) {
      WinIsNew(c, st);
    }
  }

  /** While the term stays the leader's own, other events leave its log and extend its queue. */
  lemma QueueStays(s: Server, me: int, ev: Event, e: Entry)
    requires CanHandle(s, ev) && QueuedFor(s, e) && s.logs != []
    requires !ev.Batch? && !(ev.HeartBeat? && ev.append.term >= s.currentTerm)
    ensures QueuedFor(Handle(s, me, ev), e)
  {
    match ev
    case HeartBeat(args) => assert OnHeartBeat(s, args).0 == s;
    case Count(term) => assert OnCount(s, me, term).logs == s.logs && OnCount(s, me, term).jobs == s.jobs;
    case AppendReplied(peer, sent, reply) => AppendReplyKeepsLogState(s, peer, sent, reply);
    case _ =>
  }

  /** As long as no heartbeat of the term is accepted. */
  lemma EventKeepsQueue(s: Server, me: int, ev: Event, e: Entry)
    requires CanHandle(s, ev) && s.logs != [] && me != -1 && (ev.RequestVote? ==> ev.vote.id != -1)
    requires e.term <= s.currentTerm && (s.currentTerm == e.term ==> QueuedFor(s, e) && !ev.Batch?)
    requires ev.HeartBeat? && ev.append.term >= s.currentTerm ==> ev.append.term != e.term
    ensures var t := Handle(s, me, ev);
      e.term <= t.currentTerm && (t.currentTerm == e.term ==> QueuedFor(t, e))
  {
    EventKeeps(s, me, ev);
    if Handle(s, me, ev).currentTerm == e.term {
      if ev.HeartBeat? && ev.append.term >= s.currentTerm {
        HeartBeatTakesTerm(s, ev.append);
        assert false;
      }
      QueueStays(s, me, ev, e);
    }
  }

  lemma ActorKeepsQueue(c: Config, st: Step, e: Entry)
    requires Good(c, st) && Claimed(c, st.at, e) && !(st.event.Batch? && c.servers[st.at].currentTerm == e.term)
    ensures var t := Next(c, st).servers[st.at];
      e.term <= t.currentTerm && (t.currentTerm == e.term ==> QueuedFor(t, e))
  {
    assert LogServerOk(c.leaderLogs, c.wins, st.at, c.servers[st.at]);
    if st.event.HeartBeat? {
      HeartBeatIsForeign(c, st);
    }
    EventKeepsQueue(c.servers[st.at], st.at, st.event, e);
  }

  lemma HeartBeatTakesTerm(s: Server, args: AppendArgs)
    requires HeartBeatSafe(s, args) && args.term >= s.currentTerm
    ensures OnHeartBeat(s, args).0.currentTerm == args.term
  {
  }

  lemma StepKeepsClaim(c: Config, st: Step, i: int, e: Entry)
    requires Good(c, st) && Claimed(c, i, e)
    ensures Claimed(Next(c, st), i, e)
  {
    if st.event.Batch? && c.servers[st.at].currentTerm == e.term {
      LeaderBatchKeepsClaim(c, st, i, e);
    } else {
      TermLogIsKept(c, st, i, e);
      if st.at == i {
        ActorKeepsQueue(c, st, e);
      }
    }
  }

  // ---------------------------------------------------------------- whole runs

  lemma RunStepKeepsClaim(n: nat, trace: seq<Config>, steps: seq<Step>, k: nat, i: int, e: Entry)
    requires CleanRun(n, trace, steps) && k < |steps| && Claimed(trace[k], i, e)
    ensures Claimed(trace[k + 1], i, e)
  {
    CleanStepsAreGood(n, trace, steps, k);
    StepKeepsClaim(trace[k], steps[k], i, e);
  }

  lemma {:induction false} ClaimHolds(
    n: nat, trace: seq<Config>, steps: seq<Step>, k: nat, m: nat, i: int, e: Entry)
    requires CleanRun(n, trace, steps) && k <= m < |trace| && Claimed(trace[k], i, e)
    ensures Claimed(trace[m], i, e)
    decreases m
  {
    if m == k {
    } else {
      ClaimHolds(n, trace, steps, k, m - 1, i, e);
      RunStepKeepsClaim(n, trace, steps, m - 1, i, e);
    }
  }

  /** In a clean run, when Start has returned an index and a term for a command, any entry with
      that index and term, in any server's log at any later point, is that command. */
  lemma StartedEntryIsTheCommand(n: nat, trace: seq<Config>, steps: seq<Step>, k: nat, m: nat, j: int)
    requires CleanRun(n, trace, steps) && k < m < |trace| && 0 <= j < n
    requires 0 <= steps[k].at < |trace[k].servers| && steps[k].event.Start? && trace[k].servers[steps[k].at].isLeader
    ensures |trace[m].servers| == n
    ensures var reply := OnStart(trace[k].servers[steps[k].at], steps[k].event.command).1;
      Written(trace[m].servers[j].logs, Entry(reply.index, reply.term, steps[k].event.command))
  {
    var i, command := steps[k].at, steps[k].event.command;
    var reply := OnStart(trace[k].servers[i], command).1;
    var e := Entry(reply.index, reply.term, command);
    CleanStepsAreGood(n, trace, steps, k);
    IndicesHold(n, trace, steps, k, i);
    StartClaims(trace[k], steps[k]);
    ClaimHolds(n, trace, steps, k + 1, m, i, e);
    CleanRunKeepsLogInv(n, trace, steps, m);
    WrittenInEveryLog(trace[m], i, e, j);
  }

  lemma WrittenInEveryLog(c: Config, i: int, e: Entry, j: int)
    requires LogInv(c) && Claimed(c, i, e) && 0 <= j < |c.servers|
    ensures Written(c.servers[j].logs, e)
  {
    var log := c.servers[j].logs;
    assert LogServerOk(c.leaderLogs, c.wins, j, c.servers[j]);
    if 1 <= e.index < |log| && log[e.index].term == e.term {
      assert log[..e.index + 1][e.index] == c.leaderLogs[e.term][..e.index + 1][e.index];
    }
  }
}
