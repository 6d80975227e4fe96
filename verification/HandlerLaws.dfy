/** What one handler leaves for the next: stepping down, queues, next indices, ballots. Each law
    joins a step of a Raft server to what it can or cannot do afterwards. */
module HandlerLaws {
  import opened RaftTypes
  import opened RaftHandlers
  import opened LogLemmas

  // ---------------------------------------------------------------- stepping down

  /** The server takes no commands and sends nothing. */
  ghost predicate Silent(s: Server) {
    && (forall command :: OnStart(s, command) == (s, StartReply(0, 0, false)))
    && (forall peer :: SendSafe(s, peer) ==> OnSend(s, peer).1 == None)
  }

  /** A rejection of a later term makes a leader silent in that term, and changes nothing else. */
  lemma RejectionSilences(s: Server, peer: int, sent: AppendArgs, reply: AppendReply)
    requires AppendReplySafe(s, peer, sent, reply) && !reply.success && reply.term > s.currentTerm
    ensures var t := OnAppendReply(s, peer, sent, reply);
      Silent(t) && t == s.(currentTerm := reply.term, isLeader := false)
  {
  }

  /** So does a refused vote, apart from the ballot it is. */
  lemma RefusalSilences(s: Server, peer: int, election: int, reply: VoteReply)
    requires election in s.tallies && !reply.voted && reply.term > s.currentTerm
    ensures var t := OnVoteReply(s, peer, election, reply);
      Silent(t) && t == s.(currentTerm := reply.term, isLeader := false, tallies := t.tallies)
  {
  }

  /** A heartbeat of the server's term or a later one makes it silent in that term; its vote, jobs,
      queues and elections stay. */
  lemma HeartBeatSilences(s: Server, args: AppendArgs)
    requires HeartBeatSafe(s, args) && args.term >= s.currentTerm
    ensures var t := OnHeartBeat(s, args).0;
      && Silent(t)
      && t == s.(currentTerm := args.term, isLeader := false, logs := t.logs, logidx := t.logidx,
                 commitIdx := t.commitIdx, lastApplied := t.lastApplied, applied := t.applied)
  {
  }

  /** Another term at PrevLog's position: the log loses what follows and exactly the run of that term
      that ends there, and the answer names the entry before it. */
  lemma ConflictDropsRun(s: Server, args: AppendArgs)
    requires HeartBeatSafe(s, args) && args.term >= s.currentTerm && GoodLog(s.logs)
    requires args.prevLog.index < |s.logs| && s.logs[args.prevLog.index].term != args.prevLog.term
    ensures var (t, reply) := OnHeartBeat(s, args);
      var dropped := s.logs[args.prevLog.index].term;
      && 1 <= |t.logs| <= args.prevLog.index + 1 && t.logs == s.logs[..|t.logs|]
      && (forall j :: |t.logs| <= j <= args.prevLog.index ==> s.logs[j].term == dropped)
      && (|t.logs| == 1 || s.logs[|t.logs| - 1].term != dropped)
      && reply == AppendReply(s.currentTerm, false, s.logs[|t.logs| - 1])
      && t == s.(currentTerm := args.term, isLeader := false, logs := t.logs, logidx := |t.logs| - 1)
  {
  }

  /** A log that ends before PrevLog stays, and the answer names its last entry. */
  lemma ShortLogIsNamed(s: Server, args: AppendArgs)
    requires HeartBeatSafe(s, args) && args.term >= s.currentTerm && GoodLog(s.logs)
    requires args.prevLog.index >= |s.logs|
    ensures OnHeartBeat(s, args) ==
      (s.(currentTerm := args.term, isLeader := false), AppendReply(s.currentTerm, false, s.logs[|s.logs| - 1]))
  {
  }

  /** A heartbeat of an earlier term changes nothing and is told the later one. */
  lemma StaleHeartBeatIsIgnored(s: Server, args: AppendArgs)
    requires HeartBeatSafe(s, args) && args.term < s.currentTerm
    ensures OnHeartBeat(s, args) == (s, AppendReply(s.currentTerm, false, Last(s.logs)))
  {
  }

  /** A leader takes the next command at the next index, in its term. */
  lemma LeaderTakesCommands(s: Server, command: Command)
    requires s.isLeader
    ensures var (t, reply) := OnStart(s, command);
      && reply == StartReply(s.logidx + 1, s.currentTerm, true)
      && t == s.(logidx := reply.index, jobs := s.jobs + [Entry(reply.index, s.currentTerm, command)])
  {
  }

  // ---------------------------------------------------------------- queues

  /** After a tick every other peer has something queued: an announcement of the log's end and the
      commit index if it had nothing, and otherwise what it had. */
  lemma TickFillsIdleQueues(s: Server, me: int, p: int)
    requires s.logs != [] && 0 <= p < |s.rdy|
    ensures var t := OnTick(s, me);
      && t == s.(rdy := t.rdy) && |t.rdy| == |s.rdy|
      && t.rdy[p] == (if p != me && s.rdy[p] == [] then
                        [AppendArgs(s.currentTerm, me, s.logs[|s.logs| - 1], [], s.commitIdx)]
                      else s.rdy[p])
  {
  }

  /** A batch takes up to thirty jobs; a leader announces them to every other peer behind what is
      queued, from the end of the log as it was, and a server that does not lead to none. */
  lemma BatchIsAnnounced(s: Server, me: int, p: int)
    requires GoodLog(s.logs) && s.jobs != [] && 0 <= p < |s.rdy|
    requires Contiguous(s.jobs[..BatchCount(s.jobs)], |s.logs|)
    ensures BatchSafe(s)
    ensures var t := OnBatch(s, me); var taken := |s.jobs| - |t.jobs|;
      && t == s.(rdy := t.rdy, jobs := t.jobs, logs := t.logs) && |t.rdy| == |s.rdy|
      && taken == Min(30, |s.jobs|) && t.jobs == s.jobs[taken..] && t.logs == s.logs + s.jobs[..taken]
      && t.rdy[p] == (if p != me && s.isLeader then
                        s.rdy[p] + [AppendArgs(s.currentTerm, me, s.logs[|s.logs| - 1], s.jobs[..taken], s.commitIdx)]
                      else s.rdy[p])
  {
    BatchAppendsJobs(s);
  }

  /** Sending takes the head off the peer's queue. A leader's goes out as queued, but from the
      peer's next index on; a server that does not lead drops it. */
  lemma SendTakesHead(s: Server, peer: int)
    requires SendSafe(s, peer) && GoodLog(s.logs)
    ensures var (t, sent) := OnSend(s, peer); var a := s.rdy[peer][0];
      && t == s.(rdy := s.rdy[peer := s.rdy[peer][1..]])
      && (sent.Some? <==> s.isLeader)
      && (sent.Some? ==>
            && sent.value.term == a.term && sent.value.leaderId == a.leaderId
            && sent.value.leaderCommitIdx == a.leaderCommitIdx
            && sent.value.prevLog.index == Min(a.prevLog.index, s.nextIndex[peer] - 1)
            && sent.value.prevLog.index + |sent.value.entries| == a.prevLog.index + |a.entries|)
  {
  }

  // ---------------------------------------------------------------- next indices

  /** What a tick and the send after it announce to a peer with nothing queued. */
  function TickAndSend(s: Server, me: int, peer: int): AppendArgs
    requires GoodLog(s.logs) && s.isLeader && 0 <= peer < |s.rdy| == |s.nextIndex| && peer != me
    requires s.rdy[peer] == [] && s.nextIndex[peer] >= 1
  {
    OnSend(OnTick(s, me), peer).1.value
  }

  /** After a peer has answered that it holds everything to position idx, matchIndex says so unless
      it already said more, the position goes to the commit channel if it is news, and the next
      heartbeat to the peer carries exactly the entries after idx. */
  lemma NextHeartBeatFollowsAnswer(s: Server, me: int, peer: int, sent: AppendArgs, reply: AppendReply)
    requires AppendReplySafe(s, peer, sent, reply) && reply.success && 0 <= reply.lastEntry.index < |s.logs|
    requires GoodLog(s.logs) && s.isLeader && 0 <= peer < |s.rdy| == |s.nextIndex| && peer != me && s.rdy[peer] == []
    ensures var t, idx := OnAppendReply(s, peer, sent, reply), reply.lastEntry.index;
      && t == s.(nextIndex := t.nextIndex, matchIndex := t.matchIndex, commitChnl := t.commitChnl)
      && t.matchIndex == s.matchIndex[peer := if idx > s.matchIndex[peer] then idx else s.matchIndex[peer]]
      && t.commitChnl == (if idx > s.matchIndex[peer] then s.commitChnl + [idx] else s.commitChnl)
      && t.nextIndex == s.nextIndex[peer := t.nextIndex[peer]] && t.nextIndex[peer] >= 1
      && TickAndSend(t, me, peer).prevLog == s.logs[idx]
      && TickAndSend(t, me, peer).entries == s.logs[idx + 1..]
  {
    var idx := reply.lastEntry.index;
    assert s.logs[idx + 1..|s.logs|] + [] == s.logs[idx + 1..];
    assert idx == |s.logs| - 1 ==> s.logs[idx + 1..] == [];
  }

  /** After a peer has rejected a message and named the position idx where its log ends, the next
      heartbeat starts there; or, when the leader has another term there and the message was not
      from before, at the nearest position before it that is older than the message. */
  lemma NextHeartBeatFollowsRejection(s: Server, me: int, peer: int, sent: AppendArgs, reply: AppendReply)
    requires AppendReplySafe(s, peer, sent, reply) && !reply.success && reply.term <= s.currentTerm
    requires 0 <= reply.lastEntry.index < |s.logs|
    requires GoodLog(s.logs) && s.isLeader && 0 <= peer < |s.rdy| == |s.nextIndex| && peer != me && s.rdy[peer] == []
    ensures var t, idx := OnAppendReply(s, peer, sent, reply), reply.lastEntry.index;
      && t == s.(nextIndex := s.nextIndex[peer := t.nextIndex[peer]]) && t.nextIndex[peer] >= 1
      && var from := TickAndSend(t, me, peer).prevLog.index;
      && from <= idx
      && (if 1 < idx <= sent.prevLog.index && s.logs[idx].term != reply.lastEntry.term then
            s.logs[from].term < sent.term && forall j :: from < j <= idx ==> s.logs[j].term >= sent.term
          else from == idx)
  {
  }

  // ---------------------------------------------------------------- elections

  /** A candidate has a term of its own, its own vote, and an election in which nothing is counted. */
  lemma CandidateStartsFresh(s: Server, me: int)
    requires s.logs != []
    ensures var (t, args) := OnElection(s, me); var last := s.logs[|s.logs| - 1];
      && t == s.(currentTerm := s.currentTerm + 1, votedFor := me, tallies := t.tallies)
      && args == VoteArgs(s.currentTerm + 1, me, last)
      && t.tallies == s.tallies[args.term := Tally(last, s.commitIdx, {}, {}, [], 0, true)]
  {
  }

  /** Each answer is one ballot, and a peer's answer is taken once. */
  lemma AnswerIsOneBallot(s: Server, peer: int, term: int, reply: VoteReply)
    requires term in s.tallies
    ensures var t, was := OnVoteReply(s, peer, term, reply), s.tallies[term];
      && t.tallies == s.tallies[term := t.tallies[term]]
      && t.tallies[term] == was.(answered := was.answered + {peer},
                                 yes := if reply.voted then was.yes + {peer} else was.yes,
                                 ballots := was.ballots + [reply.voted])
      && (reply.voted || reply.term <= s.currentTerm ==> t == s.(tallies := t.tallies))
  {
  }

  /** An election that is over, by a refusal, a win or its timer, counts no more ballots; one more
      vote that neither wins nor refuses leaves it open. */
  lemma ElectionsEnd(s: Server, me: int, term: int)
    requires CountSafe(s, term)
    ensures var t, vote := OnCount(s, me, term), s.tallies[term].ballots[0];
      var wins := vote && s.tallies[term].votes + 1 == |s.rdy| / 2;
      && (!vote || wins ==> !CountSafe(t, term))
      && (!wins ==> t == s.(tallies := t.tallies))
      && (vote && !wins ==>
            t.tallies == s.tallies[term := s.tallies[term].(votes := s.tallies[term].votes + 1,
                                                            ballots := s.tallies[term].ballots[1..])])
      && t.tallies.Keys == s.tallies.Keys && forall other :: other in s.tallies && other != term ==>
           t.tallies[other] == s.tallies[other]
    ensures !CountSafe(OnTallyTimeout(s, term), term)
    ensures OnTallyTimeout(s, term) == s.(tallies := s.tallies[term := s.tallies[term].(open := false)])
  {
  }

  /** The vote that wins makes a leader that takes commands at once, has announced its election to
      every other peer from the log it stood with, and begins each peer at the end of its log. */
  lemma WinnerAnnouncesItself(s: Server, me: int, term: int, p: int, command: Command)
    requires CountSafe(s, term) && s.tallies[term].ballots[0] && s.tallies[term].votes + 1 == |s.rdy| / 2
    requires 0 <= p < |s.rdy|
    ensures var t, election := OnCount(s, me, term), s.tallies[term];
      && t == s.(isLeader := true, tallies := t.tallies, rdy := t.rdy, nextIndex := t.nextIndex,
                 matchIndex := t.matchIndex)
      && OnStart(t, command).1.isLeader && |t.rdy| == |t.nextIndex| == |t.matchIndex| == |s.rdy|
      && t.rdy[p] == (if p == me then s.rdy[p]
                      else s.rdy[p] + [AppendArgs(term, me, election.lastLog, [], election.commitIdx)])
      && t.nextIndex[p] == |s.logs| && t.matchIndex[p] == 0
  {
  }
}
