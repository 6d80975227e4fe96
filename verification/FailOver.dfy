/** The first fail-over: from any state of the first leader's tenure, what the next winner's log
    holds of the entries the old leader committed (section 5.4 of the extended Raft paper). */
module FailOver {
  import opened RaftTypes
  import opened RaftHandlers
  import opened RaftSteps
  import opened Cluster
  import opened ElectionSafety
  import opened LogMatching
  import opened Tenure

  /** A last entry taken from a server's log is still there. */
  predicate InLog(s: Server, e: Entry) {
    0 <= e.index < |s.logs| && s.logs[e.index] == e
  }

  /** The candidate opened the election with this last entry, and still has it. */
  predicate Stood(c: Config, candidate: int, term: int, e: Entry) {
    && 0 <= candidate < |c.servers| && term in c.servers[candidate].tallies
    && c.servers[candidate].tallies[term].lastLog == e && InLog(c.servers[candidate], e)
  }

  /** The voter cast its vote of the term when this was its last entry, and still has it. */
  predicate VotedWith(c: Config, voter: int, term: int, e: Entry) {
    && 0 <= voter < |c.servers| && (voter, term) in c.voteLogs && c.voteLogs[(voter, term)] == e
    && InLog(c.servers[voter], e)
  }

  /** Every vote went to a candidate whose log was up to date with the voter's. */
  ghost predicate VoteOk(c: Config, g: Grant) {
    && (g.voter, g.term) in c.voteLogs
    && 0 <= g.candidate < |c.servers| && g.term in c.servers[g.candidate].tallies
    && Stood(c, g.candidate, g.term, c.servers[g.candidate].tallies[g.term].lastLog)
    && VotedWith(c, g.voter, g.term, c.voteLogs[(g.voter, g.term)])
    && UpToDate(c.servers[g.candidate].tallies[g.term].lastLog, c.voteLogs[(g.voter, g.term)])
  }

  ghost predicate RequestOk(c: Config, m: Message) {
    m.VoteRequest? ==> Stood(c, m.src, m.vote.term, m.vote.log)
  }

  /** Every vote of the peer for a term after `term` was cast with position idx in its log. */
  ghost predicate CoversAck(c: Config, term: int, peer: int, idx: int) {
    forall g :: g in c.grants && g.voter == peer && g.term > term && (g.voter, g.term) in c.voteLogs ==>
      idx <= c.voteLogs[(g.voter, g.term)].index
  }

  ghost predicate AnswerCovered(c: Config, term: int, m: Message) {
    m.AppendResponse? && m.appendReply.success ==> CoversAck(c, term, m.src, m.appendReply.lastEntry.index)
  }

  ghost predicate FailOverInv(c: Config, term: int, l: int) {
    && 0 <= l < |c.servers|
    && (forall g :: g in c.grants ==> VoteOk(c, g))
    && (forall m :: m in c.net ==> RequestOk(c, m) && AnswerCovered(c, term, m))
    && (forall a :: a in c.acks ==> CoversAck(c, term, a.peer, a.idx))
    && (Win(term, l) in c.wins ==> CoversAck(c, term, l, |c.servers[l].logs| - 1))
  }

  // ---------------------------------------------------------------- what one step leaves alone

  predicate ServerEvolves(s: Server, t: Server) {
    && s.logs <= t.logs
    && forall e :: e in s.tallies ==> e in t.tallies && t.tallies[e].lastLog == s.tallies[e].lastLog
  }

  ghost predicate VoteLogKept(c: Config, d: Config, g: Grant) {
    (g.voter, g.term) in c.voteLogs ==>
      (g.voter, g.term) in d.voteLogs && d.voteLogs[(g.voter, g.term)] == c.voteLogs[(g.voter, g.term)]
  }

  /** Votes newly cast record the voter's last entry at the time. */
  ghost predicate NewVoteRecorded(c: Config, d: Config, g: Grant) {
    && 0 <= g.voter < |c.servers| && c.servers[g.voter].logs != []
    && (g.voter, g.term) in d.voteLogs && d.voteLogs[(g.voter, g.term)] == Last(c.servers[g.voter].logs)
  }

  ghost predicate Evolves(c: Config, d: Config) {
    && |d.servers| == |c.servers| && c.grants <= d.grants
    && (forall i :: 0 <= i < |c.servers| ==> ServerEvolves(c.servers[i], d.servers[i]) && GoodLog(c.servers[i].logs))
    && (forall g :: g in c.grants ==> VoteLogKept(c, d, g))
    && (forall g :: g in d.grants && g !in c.grants ==> NewVoteRecorded(c, d, g))
  }

  lemma TalliesKeepLastLog(s: Server, me: int, e: Event)
    requires CanHandle(s, e) && !e.HeartBeat? && s.currentTerm + 1 !in s.tallies
    ensures forall t :: t in s.tallies ==>
      t in Handle(s, me, e).tallies && Handle(s, me, e).tallies[t].lastLog == s.tallies[t].lastLog
  {
    match e
    case Batch => assert OnBatch(s, me).tallies == s.tallies;
    case Count(term) => assert OnCount(s, me, term).tallies.Keys == s.tallies.Keys;
    case AppendReplied(peer, sent, reply) => assert OnAppendReply(s, peer, sent, reply).tallies == s.tallies;
    case _ =>
  }

  lemma ActorEvolves(c: Config, st: Step, term: int, l: int)
    requires Steady(c, st, term, l)
    ensures ServerEvolves(c.servers[st.at], Next(c, st).servers[st.at])
  {
    var s := c.servers[st.at];
    StepKeepsApplied(c, st, term, l);
    assert ServerOk(|c.servers|, c.grants, st.at, s);
    if st.event.HeartBeat? {
      HeartBeatLeavesQueues(s, st.event.append);
    } else {
      TalliesKeepLastLog(s, st.at, st.event);
    }
  }

  /** A vote is cast in a term the voter has not voted in. */
  lemma CastIsNew(c: Config, st: Step, g: Grant, h: Grant)
    requires ElectionInv(c) && Enabled(c, st) && g in Casts(c, st) && h in c.grants
    ensures (g.voter, g.term) != (h.voter, h.term)
  {
  }

  /** The history records the vote with the voter's last entry. */
  lemma CastIsRecorded(c: Config, st: Step, g: Grant)
    requires Enabled(c, st) && g in Casts(c, st)
    ensures g.voter == st.at && NewVoteRecorded(c, Next(c, st), g)
  {
    assert Casts(c, st) == {g};
  }

  lemma VoteLogIsKept(c: Config, st: Step, g: Grant)
    requires ElectionInv(c) && Enabled(c, st) && g in c.grants
    ensures VoteLogKept(c, Next(c, st), g)
  {
    forall h | h in Casts(c, st)
      ensures (h.voter, h.term) != (g.voter, g.term)
    {
      CastIsNew(c, st, h, g);
    }
  }

  lemma StepEvolves(c: Config, st: Step, term: int, l: int)
    requires Steady(c, st, term, l)
    ensures Evolves(c, Next(c, st))
  {
    ActorEvolves(c, st, term, l);
    forall i | 0 <= i < |c.servers|
      ensures ServerEvolves(c.servers[i], Next(c, st).servers[i]) && GoodLog(c.servers[i].logs)
    {
      assert LogServerOk(c.leaderLogs, c.wins, i, c.servers[i]);
    }
    forall g | g in c.grants
      ensures VoteLogKept(c, Next(c, st), g)
    {
      VoteLogIsKept(c, st, g);
    }
    forall g | g in Casts(c, st)
      ensures NewVoteRecorded(c, Next(c, st), g)
    {
      CastIsRecorded(c, st, g);
    }
  }

  // ---------------------------------------------------------------- votes

  lemma StoodStays(c: Config, d: Config, candidate: int, term: int, e: Entry)
    requires Stood(c, candidate, term, e) && Evolves(c, d)
    ensures Stood(d, candidate, term, e)
  {
    assert ServerEvolves(c.servers[candidate], d.servers[candidate]);
  }

  lemma VoteStaysOk(c: Config, d: Config, g: Grant)
    requires VoteOk(c, g) && g in c.grants && Evolves(c, d)
    ensures VoteOk(d, g)
  {
    StoodStays(c, d, g.candidate, g.term, c.servers[g.candidate].tallies[g.term].lastLog);
    assert VoteLogKept(c, d, g) && ServerEvolves(c.servers[g.voter], d.servers[g.voter]);
  }

  lemma NewVoteIsOk(c: Config, d: Config, g: Grant, e: Entry)
    requires Evolves(c, d) && NewVoteRecorded(c, d, g) && Stood(d, g.candidate, g.term, e)
    requires UpToDate(e, Last(c.servers[g.voter].logs))
    ensures VoteOk(d, g)
  {
    assert ServerEvolves(c.servers[g.voter], d.servers[g.voter]) && GoodLog(c.servers[g.voter].logs);
  }

  /** The candidate of a granted request stood with the entry in the request. */
  lemma GrantedRequestIsOk(c: Config, d: Config, st: Step)
    requires VoteNetOk(c) && Enabled(c, st) && st.event.RequestVote? && Evolves(c, d)
    requires forall m :: m in c.net ==> RequestOk(c, m)
    ensures Stood(d, st.event.vote.id, st.event.vote.term, st.event.vote.log)
  {
    assert RequestOk(c, VoteRequest(st.src, st.at, st.event.vote));
    StoodStays(c, d, st.event.vote.id, st.event.vote.term, st.event.vote.log);
  }

  /** A new candidate stands with its last entry. */
  lemma NewCandidateStands(s: Server, me: int)
    requires GoodLog(s.logs)
    ensures var t := OnElection(s, me).0;
      && s.currentTerm + 1 in t.tallies && t.tallies[s.currentTerm + 1].lastLog == Last(s.logs)
      && InLog(t, Last(s.logs))
  {
  }

  /** The candidate a vote just went to stood with an entry up to date with the voter's. */
  lemma CastHasCandidate(c: Config, st: Step, g: Grant) returns (e: Entry)
    requires VoteNetOk(c) && Enabled(c, st) && g in Casts(c, st) && Evolves(c, Next(c, st))
    requires forall m :: m in c.net ==> RequestOk(c, m)
    ensures Stood(Next(c, st), g.candidate, g.term, e)
    ensures UpToDate(e, Last(c.servers[st.at].logs)) && g.voter == st.at
  {
    if st.event.RequestVote? {
      e := st.event.vote.log;
      GrantedRequestIsOk(c, Next(c, st), st);
    } else {
      e := Last(c.servers[st.at].logs);
      assert ServerEvolves(c.servers[st.at], Next(c, st).servers[st.at]) && GoodLog(c.servers[st.at].logs);
      NewCandidateStands(c.servers[st.at], st.at);
    }
  }

  lemma StepKeepsVotesOk(c: Config, st: Step, term: int, l: int, g: Grant)
    requires Steady(c, st, term, l) && FailOverInv(c, term, l) && g in Next(c, st).grants
    ensures VoteOk(Next(c, st), g)
  {
    StepEvolves(c, st, term, l);
    if g in c.grants {
      VoteStaysOk(c, Next(c, st), g);
    } else {
      var e := CastHasCandidate(c, st, g);
      NewVoteIsOk(c, Next(c, st), g, e);
    }
  }

  /** The requests an election sends name the entry the candidate stands with. */
  lemma NewRequestIsOk(c: Config, st: Step, m: Message)
    requires Enabled(c, st) && m in Sends(c, st)
    requires c.servers[st.at].logs != [] && GoodLog(c.servers[st.at].logs)
    ensures RequestOk(Next(c, st), m)
  {
    if st.event.Elect? {
      assert OnElection(c.servers[st.at], st.at).0.logs == c.servers[st.at].logs;
    }
  }

  lemma StepKeepsRequests(c: Config, st: Step, term: int, l: int, m: Message)
    requires Steady(c, st, term, l) && FailOverInv(c, term, l) && m in Next(c, st).net
    ensures RequestOk(Next(c, st), m)
  {
    StepEvolves(c, st, term, l);
    if m in c.net {
      assert RequestOk(c, m);
      if m.VoteRequest? {
        StoodStays(c, Next(c, st), m.src, m.vote.term, m.vote.log);
      }
    } else {
      NewRequestIsOk(c, st, m);
    }
  }

  // ---------------------------------------------------------------- acknowledgements and votes

  /** A position already in the voter's log is covered by every later vote. */
  lemma CoverStays(c: Config, d: Config, term: int, peer: int, idx: int)
    requires Evolves(c, d) && CoversAck(c, term, peer, idx)
    requires forall g :: g in c.grants ==> VoteOk(c, g)
    requires 0 <= peer < |c.servers| && idx < |c.servers[peer].logs|
    ensures CoversAck(d, term, peer, idx)
  {
    forall g | g in d.grants && g.voter == peer && g.term > term && (g.voter, g.term) in d.voteLogs
      ensures idx <= d.voteLogs[(g.voter, g.term)].index
    {
      if g in c.grants {
        assert VoteOk(c, g) && VoteLogKept(c, d, g);
      } else {
        assert NewVoteRecorded(c, d, g) && GoodLog(c.servers[peer].logs);
      }
    }
  }

  /** A server whose term is not past the tenure's has not voted for a later term. */
  lemma NoLaterVote(c: Config, term: int, peer: int, idx: int)
    requires VotesOk(c) && 0 <= peer < |c.servers| && c.servers[peer].currentTerm <= term
    ensures CoversAck(c, term, peer, idx)
  {
  }

  lemma AcceptedMeansSameTerm(s: Server, args: AppendArgs)
    requires HeartBeatSafe(s, args) && OnHeartBeat(s, args).1.success
    ensures OnHeartBeat(s, args).0.currentTerm == args.term
  {
  }

  /** A follower that acknowledges is still in the tenure's term, so it has cast no later vote. */
  lemma NewAnswerIsCovered(c: Config, st: Step, term: int, l: int, m: Message)
    requires Steady(c, st, term, l) && m in Sends(c, st)
    ensures AnswerCovered(Next(c, st), term, m)
  {
    if m.AppendResponse? && m.appendReply.success {
      OnlyTheLeaderLeads(c, st, term, l);
      AcceptedMeansSameTerm(c.servers[st.at], st.event.append);
      StepKeepsVotes(c, st);
      NoLaterVote(Next(c, st), term, st.at, m.appendReply.lastEntry.index);
    }
  }

  lemma StepKeepsAnswersCovered(c: Config, st: Step, term: int, l: int, m: Message)
    requires Steady(c, st, term, l) && FailOverInv(c, term, l) && m in Next(c, st).net
    ensures AnswerCovered(Next(c, st), term, m)
  {
    if m !in c.net {
      NewAnswerIsCovered(c, st, term, l, m);
    } else if m.AppendResponse? && m.appendReply.success {
      assert MessageOk(c, term, l, m) && AnswerCovered(c, term, m);
      StepEvolves(c, st, term, l);
      CoverStays(c, Next(c, st), term, m.src, m.appendReply.lastEntry.index);
    }
  }

  /** A new acknowledgement stems from an answer in the network. */
  lemma NewAckIsCovered(c: Config, st: Step, term: int, a: Ack)
    requires Enabled(c, st) && a in Acknowledges(c, st)
    requires forall m :: m in c.net ==> AnswerCovered(c, term, m)
    ensures CoversAck(c, term, a.peer, a.idx)
  {
    assert AnswerCovered(c, term, AppendResponse(st.event.peer, st.at, st.event.sent, st.event.appendReply));
  }

  lemma StepKeepsAcksCovered(c: Config, st: Step, term: int, l: int, a: Ack)
    requires Steady(c, st, term, l) && FailOverInv(c, term, l) && a in Next(c, st).acks
    ensures CoversAck(Next(c, st), term, a.peer, a.idx)
  {
    if a !in c.acks {
      AcknowledgementIsFresh(c, st, term, l, a);
      NewAckIsCovered(c, st, term, a);
    }
    StepEvolves(c, st, term, l);
    CoverStays(c, Next(c, st), term, a.peer, a.idx);
  }

  lemma BatchAndCountKeepTerm(s: Server, me: int, e: Event)
    requires CanHandle(s, e) && (e.Batch? || e.Count?)
    ensures Handle(s, me, e).currentTerm == s.currentTerm
  {
    match e
    case Batch => assert OnBatch(s, me).currentTerm == s.currentTerm;
    case Count(term) => assert OnCount(s, me, term).currentTerm == s.currentTerm;
  }

  /** While its log grows the leader is in the tenure's term, and has cast no later vote. */
  lemma GrowingLeaderIsCovered(c: Config, st: Step, term: int, l: int)
    requires Steady(c, st, term, l) && (st.event.Batch? || Winning(c, st))
    ensures CoversAck(Next(c, st), term, l, |Next(c, st).servers[l].logs| - 1)
  {
    OnlyTheLeaderLeads(c, st, term, l);
    BatchAndCountKeepTerm(c.servers[l], l, st.event);
    StepKeepsVotes(c, st);
    NoLaterVote(Next(c, st), term, l, |Next(c, st).servers[l].logs| - 1);
  }

  /** The leader's own log is covered by any later vote of the leader. */
  lemma StepKeepsLeaderCovered(c: Config, st: Step, term: int, l: int)
    requires Steady(c, st, term, l) && FailOverInv(c, term, l) && Win(term, l) in Next(c, st).wins
    ensures CoversAck(Next(c, st), term, l, |Next(c, st).servers[l].logs| - 1)
  {
    if st.event.Batch? || Winning(c, st) {
      GrowingLeaderIsCovered(c, st, term, l);
    } else {
      OnlyTheLeaderLeads(c, st, term, l);
      LeaderEventKeepsLog(c, st, term, l);
      StepEvolves(c, st, term, l);
      CoverStays(c, Next(c, st), term, l, |c.servers[l].logs| - 1);
    }
  }

  lemma StepKeepsFailOverInv(c: Config, st: Step, term: int, l: int)
    requires Steady(c, st, term, l) && FailOverInv(c, term, l)
    ensures FailOverInv(Next(c, st), term, l)
  {
    forall g | g in Next(c, st).grants
      ensures VoteOk(Next(c, st), g)
    {
      StepKeepsVotesOk(c, st, term, l, g);
    }
    forall m | m in Next(c, st).net
      ensures RequestOk(Next(c, st), m) && AnswerCovered(Next(c, st), term, m)
    {
      StepKeepsRequests(c, st, term, l, m);
      StepKeepsAnswersCovered(c, st, term, l, m);
    }
    forall a | a in Next(c, st).acks
      ensures CoversAck(Next(c, st), term, a.peer, a.idx)
    {
      StepKeepsAcksCovered(c, st, term, l, a);
    }
    if Win(term, l) in Next(c, st).wins {
      StepKeepsLeaderCovered(c, st, term, l);
    }
  }

  // ---------------------------------------------------------------- the next winner

  /** A member of the commit quorum cast any later vote with the committed entries in its log. */
  lemma VoteCoversCommitted(c: Config, term: int, l: int, g: Grant)
    requires FailOverInv(c, term, l) && Win(term, l) in c.wins && c.servers[l].commitIdx < |c.servers[l].logs|
    requires g in c.grants && g.term > term && g.voter in CommitQuorum(c, l)
    ensures VoteOk(c, g) && c.servers[l].commitIdx <= c.voteLogs[(g.voter, g.term)].index
  {
    assert VoteOk(c, g);
    if g.voter != l {
      assert Ack(l, g.voter, c.servers[l].commitIdx) in c.acks;
    }
  }

  /** In a single tenure an up-to-date entry is at least as far on. */
  lemma UpToDateMeansFurther(voter: seq<Entry>, candidate: seq<Entry>, mine: Entry, theirs: Entry, term: int)
    requires GoodLog(voter) && GoodLog(candidate) && term >= 1
    requires forall k :: 1 <= k < |voter| ==> voter[k].term == term
    requires forall k :: 1 <= k < |candidate| ==> candidate[k].term == term
    requires 1 <= mine.index < |voter| && voter[mine.index] == mine
    requires 0 <= theirs.index < |candidate| && candidate[theirs.index] == theirs
    requires UpToDate(theirs, mine)
    ensures mine.index <= theirs.index
  {
  }

  /** Such a vote for the candidate of a later term forces every committed entry into its log. */
  lemma VoterForcesCommitted(c: Config, term: int, l: int, g: Grant)
    requires LogInv(c) && TenureInv(c, term, l) && FailOverInv(c, term, l)
    requires g in c.grants && g.term > term && g.voter in CommitQuorum(c, l) && c.servers[l].commitIdx > 0
    ensures 0 <= g.candidate < |c.servers| && c.servers[l].commitIdx < |c.servers[g.candidate].logs|
  {
    SoleWinnerPinsLogs(c, term, l, l);
    LeaderWon(c, term, l);
    VoteCoversCommitted(c, term, l, g);
    EntriesAreOfTheTenure(c, term, l, g.voter);
    EntriesAreOfTheTenure(c, term, l, g.candidate);
    UpToDateMeansFurther(
      c.servers[g.voter].logs, c.servers[g.candidate].logs,
      c.voteLogs[(g.voter, g.term)], c.servers[g.candidate].tallies[g.term].lastLog, term);
  }

  lemma LeaderWon(c: Config, term: int, l: int)
    requires TenureInv(c, term, l) && c.servers[l].commitIdx > 0
    requires Win(term, l) in c.wins <==> term in c.leaderLogs
    ensures Win(term, l) in c.wins && c.servers[l].commitIdx < |c.servers[l].logs|
  {
    assert AppliedOk(c.servers[l], c.servers[l].commitIdx);
  }

  /** Past the sentinel, every entry was created in the tenure's term. */
  lemma EntriesAreOfTheTenure(c: Config, term: int, l: int, i: int)
    requires LogInv(c) && SoleWinner(c, term, l) && 0 <= i < |c.servers|
    ensures forall k :: 1 <= k < |c.servers[i].logs| ==> c.servers[i].logs[k].term == term && term >= 1
    ensures GoodLog(c.servers[i].logs)
  {
    var log := c.servers[i].logs;
    assert LogServerOk(c.leaderLogs, c.wins, i, c.servers[i]);
    forall k | 1 <= k < |log|
      ensures log[k].term == term && term >= 1
    {
      assert log[k].term >= 1 && log[k].term in c.leaderLogs;
      var w :| w in c.wins && w.term == log[k].term;
      assert w == Win(term, l);
    }
  }

  /** The winner of a later term holds everything the old leader committed. */
  lemma LaterWinnerHoldsCommitted(c: Config, st: Step, term: int, l: int)
    requires Good(c, st) && TenureInv(c, term, l) && FailOverInv(c, term, l)
    requires Winning(c, st) && st.event.term > term
    ensures c.servers[l].commitIdx < |c.servers[l].logs| && c.servers[l].commitIdx >= 0
    ensures c.servers[l].logs[..c.servers[l].commitIdx + 1] <= c.servers[st.at].logs
  {
    var commit := c.servers[l].commitIdx;
    assert AppliedOk(c.servers[l], commit);
    SoleWinnerPinsLogs(c, term, l, st.at);
    EntriesAreOfTheTenure(c, term, l, st.at);
    EntriesAreOfTheTenure(c, term, l, l);
    if commit > 0 {
      WinnerHasMajority(c, st);
      CommitQuorumIsMajority(c, term, l);
      var p := MajoritiesMeet(|c.servers|, Voters(c, st.event.term, st.at), CommitQuorum(c, l));
      VoterForcesCommitted(c, term, l, Grant(p, st.event.term, st.at));
      assert c.servers[l].logs[..commit + 1] == CommonLog(c, term)[..commit + 1];
    }
  }

  /** A log whose entries are all of one term, and none past an earlier one, is empty. */
  lemma NoEntriesFit(log: seq<Entry>, term: int, earlier: int)
    requires GoodLog(log) && TermsUpTo(log, earlier) && earlier < term
    requires forall k :: 1 <= k < |log| ==> log[k].term == term
    ensures log == [SENTINEL]
  {
    assert Last(log).term <= earlier;
  }

  lemma LogsStayWithinTerm(c: Config, i: int)
    requires LogInv(c) && 0 <= i < |c.servers|
    ensures TermsUpTo(c.servers[i].logs, c.servers[i].currentTerm)
  {
    assert LogServerOk(c.leaderLogs, c.wins, i, c.servers[i]);
  }

  /** The winner of an earlier term holds nothing but the sentinel. */
  lemma EarlierWinnerHoldsNothing(c: Config, st: Step, term: int, l: int)
    requires Good(c, st) && TenureInv(c, term, l) && Winning(c, st) && st.event.term < term
    ensures c.servers[st.at].logs == [SENTINEL]
  {
    EntriesAreOfTheTenure(c, term, l, st.at);
    LogsStayWithinTerm(c, st.at);
    NoEntriesFit(c.servers[st.at].logs, term, st.event.term);
  }

  // ---------------------------------------------------------------- whole runs

  lemma FreshClusterCanFailOver(n: nat, term: int, l: int)
    requires 0 <= l < n
    ensures FailOverInv(Init(n), term, l)
  {
  }

  lemma {:induction false} FailOverHolds(n: nat, trace: seq<Config>, steps: seq<Step>, k: nat, term: int, l: int)
    requires CleanRun(n, trace, steps) && k < |trace| && SoleWinner(trace[k], term, l)
    ensures FailOverInv(trace[k], term, l)
  {
    if k > 0 {
      CleanStepsAreGood(n, trace, steps, k - 1);
      SoleWinnerBefore(trace[k - 1], steps[k - 1], term, l);
      TenureHolds(n, trace, steps, k - 1, term, l);
      FailOverHolds(n, trace, steps, k - 1, term, l);
      StepKeepsFailOverInv(trace[k - 1], steps[k - 1], term, l);
    } else {
      CleanRunKeepsLogInv(n, trace, steps, 0);
      FreshClusterCanFailOver(n, term, l);
    }
  }

  lemma WinKeepsLog(s: Server, me: int, term: int)
    requires CountSafe(s, term)
    ensures OnCount(s, me, term).logs == s.logs
  {
  }

  /** The server's log starts with every entry the old leader has committed. */
  predicate HoldsCommitted(s: Server, leader: Server) {
    0 <= leader.commitIdx < |leader.logs| && leader.logs[..leader.commitIdx + 1] <= s.logs
  }

  lemma SecondWinnerHoldsCommitted(c: Config, st: Step, term: int, l: int)
    requires Good(c, st) && TenureInv(c, term, l) && FailOverInv(c, term, l)
    requires Win(term, l) in c.wins && Winning(c, st)
    ensures HoldsCommitted(Next(c, st).servers[st.at], c.servers[l])
            <==> (st.event.term > term || c.servers[l].commitIdx == 0)
  {
    assert AppliedOk(c.servers[l], c.servers[l].commitIdx);
    WinIsNew(c, st);
    WinKeepsLog(c.servers[st.at], st.at, st.event.term);
    if st.event.term > term {
      LaterWinnerHoldsCommitted(c, st, term, l);
    } else {
      EarlierWinnerHoldsNothing(c, st, term, l);
      EntriesAreOfTheTenure(c, term, l, l);
    }
  }

  /** The first fail-over. Let `l`, winner of `term`, be the only winner up to point k of a clean
      run, and let step k be a second win. The new winner's log contains every entry l has
      committed if and only if its term is later than l's or l has committed nothing. */
  lemma NextWinnerHoldsCommitted(n: nat, trace: seq<Config>, steps: seq<Step>, k: nat, term: int, l: int)
    requires CleanRun(n, trace, steps) && k < |steps| && 0 <= l < n
    requires trace[k].wins == {Win(term, l)} && Winning(trace[k], steps[k])
    ensures |trace[k].servers| == n == |trace[k + 1].servers| && 0 <= steps[k].at < n
    ensures HoldsCommitted(trace[k + 1].servers[steps[k].at], trace[k].servers[l])
            <==> (steps[k].event.term > term || trace[k].servers[l].commitIdx == 0)
  {
    CleanStepsAreGood(n, trace, steps, k);
    TenureHolds(n, trace, steps, k, term, l);
    FailOverHolds(n, trace, steps, k, term, l);
    SecondWinnerHoldsCommitted(trace[k], steps[k], term, l);
  }
}
