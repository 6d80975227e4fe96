/** One server over any run of events: the stream of applied messages, and the
    conservation of started commands. */
module ApplyStream {
  import opened RaftTypes
  import opened RaftHandlers
  import opened RaftSteps
  import opened LogLemmas

  /** The messages applied so far carry the indices 1, 2, ..., lastApplied. */
  predicate GaplessStream(s: Server) {
    && GoodLog(s.logs)
    && s.commitIdx == s.lastApplied == |s.applied|
    && forall i :: 0 <= i < |s.applied| ==> s.applied[i].index == i + 1
  }

  /** A message or batch whose entries are numbered consecutively. A batch of one job
      needs no numbering: it is appended only where it fits. */
  predicate WellNumbered(s: Server, e: Event) {
    match e
    case HeartBeat(args) => args.prevLog.index >= 0 && Contiguous(args.entries, args.prevLog.index + 1)
    case Batch => BatchCount(s.jobs) == 1 || Contiguous(s.jobs[..BatchCount(s.jobs)], |s.logs|)
    case _ => true
  }

  predicate AllWellNumbered(s: Server, me: int, events: seq<Event>)
    requires Feasible(s, me, events)
    decreases |events|
  {
    events == [] ||
    (WellNumbered(s, events[0]) && AllWellNumbered(Handle(s, me, events[0]), me, events[1..]))
  }

  /** Applying a slice of the log right after what is applied extends the stream without a gap. */
  lemma ApplyExtendsStream(applied: seq<ApplyMsg>, logs: seq<Entry>, c: int)
    requires GoodLog(logs) && |applied| <= c < |logs|
    requires forall i :: 0 <= i < |applied| ==> applied[i].index == i + 1
    ensures var r := applied + Messages(logs[|applied| + 1..c + 1]);
            |r| == c && forall i :: 0 <= i < |r| ==> r[i].index == i + 1
  {
  }

  lemma HeartBeatKeepsStream(s: Server, args: AppendArgs)
    requires GaplessStream(s) && args.prevLog.index >= 0 && Contiguous(args.entries, args.prevLog.index + 1)
    ensures HeartBeatSafe(s, args) && GaplessStream(OnHeartBeat(s, args).0)
    ensures s.applied <= OnHeartBeat(s, args).0.applied
  {
    ContiguousHeartBeatIsSafe(s, args);
    if args.term >= s.currentTerm && Consistent(s.logs, args.prevLog) {
      MergeKeepsGoodLog(s.logs, args.entries, 0, args.prevLog.index);
      var l := Merge(s.logs, args.entries, 0, Last(s.logs).index).value;
      if Advances(l, s.commitIdx, s.lastApplied, args.leaderCommitIdx) {
        ApplyExtendsStream(s.applied, l, Min(Last(l).index, args.leaderCommitIdx));
      }
    }
  }

  /** A follower that accepts a message commits and applies as far as its log and the leader's commit
      index both reach, if that is further than before; one that rejects it applies nothing. */
  lemma HeartBeatCommits(s: Server, args: AppendArgs)
    requires GaplessStream(s) && args.prevLog.index >= 0 && Contiguous(args.entries, args.prevLog.index + 1)
    ensures HeartBeatSafe(s, args)
    ensures var (t, reply) := OnHeartBeat(s, args);
      var reached := Min(|t.logs| - 1, args.leaderCommitIdx);
      && t.commitIdx == t.lastApplied
      && (reply.success && reached > s.lastApplied ==>
            t.lastApplied == reached && t.applied == s.applied + Messages(t.logs[s.lastApplied + 1..reached + 1]))
      && (!reply.success || reached <= s.lastApplied ==>
            t.lastApplied == s.lastApplied && t.applied == s.applied)
  {
    ContiguousHeartBeatIsSafe(s, args);
    if args.term >= s.currentTerm && Consistent(s.logs, args.prevLog) {
      MergeKeepsGoodLog(s.logs, args.entries, 0, args.prevLog.index);
    }
  }

  lemma BatchKeepsStream(s: Server, me: int)
    requires GaplessStream(s) && BatchSafe(s) && WellNumbered(s, Batch)
    ensures GaplessStream(OnBatch(s, me)) && s.applied == OnBatch(s, me).applied
  {
    if BatchCount(s.jobs) > 1 {
      BatchAppendsJobs(s);
    } else {
      assert BatchEntries(s)[0..] == [s.jobs[0]];
      assert Appended(s.logs, BatchEntries(s), 1) == s.logs;
    }
  }

  lemma CommitKeepsStream(s: Server)
    requires GaplessStream(s) && CommitSafe(s)
    ensures GaplessStream(OnCommit(s)) && s.applied <= OnCommit(s).applied
  {
    var newIdx := s.commitChnl[0];
    if s.commitIdx < newIdx < |s.logs| {
      ApplyExtendsStream(s.applied, s.logs, newIdx);
    }
  }

  lemma EventKeepsStream(s: Server, me: int, e: Event)
    requires GaplessStream(s) && CanHandle(s, e) && WellNumbered(s, e)
    ensures GaplessStream(Handle(s, me, e)) && s.applied <= Handle(s, me, e).applied
  {
    match e
    case HeartBeat(args) => HeartBeatKeepsStream(s, args);
    case Batch => BatchKeepsStream(s, me);
    case Commit => CommitKeepsStream(s);
    case _ =>
  }

  /** At any server, over any mix of leader and follower steps and truncations, the indices
      applied are exactly 1..lastApplied, commitIdx is lastApplied, and nothing applied is
      ever taken back. */
  lemma {:induction false} AppliedIndicesAreConsecutive(s: Server, me: int, events: seq<Event>)
    requires GaplessStream(s) && Feasible(s, me, events) && AllWellNumbered(s, me, events)
    ensures GaplessStream(After(s, me, events))
    ensures s.applied <= After(s, me, events).applied
    decreases |events|
  {
    if events == [] {
    } else {
      EventKeepsStream(s, me, events[0]);
      AppliedIndicesAreConsecutive(Handle(s, me, events[0]), me, events[1..]);
    }
  }

  // ---------------------------------------------------------------- Start and batch conservation

  predicate AcceptsHeartBeat(s: Server, e: Event) {
    e.HeartBeat? && e.append.term >= s.currentTerm
  }

  predicate NoHeartBeatAccepted(s: Server, me: int, events: seq<Event>)
    requires Feasible(s, me, events)
    decreases |events|
  {
    events == [] ||
    (!AcceptsHeartBeat(s, events[0]) && NoHeartBeatAccepted(Handle(s, me, events[0]), me, events[1..]))
  }

  /** The entry an event starts, if any: the reply of Start with the command. */
  function StartedBy(s: Server, e: Event): seq<Entry> {
    if e.Start? && OnStart(s, e.command).1.isLeader then
      [Entry(OnStart(s, e.command).1.index, OnStart(s, e.command).1.term, e.command)]
    else []
  }

  /** The entries started by a run of events, in order, as their callers were told. */
  function Started(s: Server, me: int, events: seq<Event>): seq<Entry>
    requires Feasible(s, me, events)
    decreases |events|
  {
    if events == [] then [] else StartedBy(s, events[0]) + Started(Handle(s, me, events[0]), me, events[1..])
  }

  /** Log and queued jobs form one numbered sequence and logidx is its last index. */
  predicate QueueContinuesLog(s: Server) {
    GoodLog(s.logs) && Contiguous(s.jobs, |s.logs|) && s.logidx == |s.logs| + |s.jobs| - 1
  }

  /** A batch of a queue that continues the log panics on no slot and moves jobs from queue to log. */
  lemma BatchMovesJobs(s: Server, me: int)
    requires QueueContinuesLog(s) && s.jobs != []
    ensures BatchSafe(s) && QueueContinuesLog(OnBatch(s, me))
    ensures OnBatch(s, me).logs + OnBatch(s, me).jobs == s.logs + s.jobs
    ensures |OnBatch(s, me).jobs| < |s.jobs|
  {
    BatchAppendsJobs(s);
  }

  lemma EventConserves(s: Server, me: int, e: Event)
    requires QueueContinuesLog(s) && CanHandle(s, e) && !AcceptsHeartBeat(s, e)
    ensures QueueContinuesLog(Handle(s, me, e))
    ensures var t := Handle(s, me, e); t.logs + t.jobs == s.logs + s.jobs + StartedBy(s, e)
  {
    match e
    case Batch => BatchMovesJobs(s, me);
    case Start(command) =>
    case _ =>
  }

  lemma Associative(a: seq<Entry>, b: seq<Entry>, c: seq<Entry>)
    ensures (a + b) + c == a + (b + c)
  {
  }

  /** While no heartbeat is accepted, log and queue together are the old log and queue followed
      by every started command, in order. */
  lemma {:induction false} StartedCommandsAreConserved(s: Server, me: int, events: seq<Event>)
    requires QueueContinuesLog(s) && Feasible(s, me, events) && NoHeartBeatAccepted(s, me, events)
    ensures QueueContinuesLog(After(s, me, events))
    ensures var t := After(s, me, events); t.logs + t.jobs == s.logs + s.jobs + Started(s, me, events)
    decreases |events|
  {
    if events == [] {
    } else {
      var t := Handle(s, me, events[0]);
      EventConserves(s, me, events[0]);
      StartedCommandsAreConserved(t, me, events[1..]);
      Associative(s.logs + s.jobs, StartedBy(s, events[0]), Started(t, me, events[1..]));
    }
  }

  /** Each index Start returned is the position its command has in log and queue, and once the
      queue is drained the command is in the log there. */
  lemma StartedCommandsLandWhereTold(s: Server, me: int, events: seq<Event>, k: nat)
    requires QueueContinuesLog(s) && Feasible(s, me, events) && NoHeartBeatAccepted(s, me, events)
    requires k < |Started(s, me, events)|
    ensures var t := After(s, me, events); var e := Started(s, me, events)[k];
            && e.index == |s.logs| + |s.jobs| + k < |t.logs| + |t.jobs|
            && (t.logs + t.jobs)[e.index] == e
            && (e.index < |t.logs| ==> t.logs[e.index] == e)
  {
    StartedCommandsAreConserved(s, me, events);
    var t := After(s, me, events);
    var started := Started(s, me, events);
    var at := |s.logs| + |s.jobs| + k;
    assert (t.logs + t.jobs)[at] == (s.logs + s.jobs + started)[at] == started[k];
    assert (t.logs + t.jobs)[at].index == at;
  }
}
