/** A clean run of three servers in which the second winner is a candidate of an earlier term
    whose votes arrived late, and lacks what the first winner committed. It shows that the
    condition of FailOver.NextWinnerHoldsCommitted shuts out runs that do happen. */
module StaleWinner {
  import opened RaftTypes
  import opened RaftHandlers
  import opened RaftSteps
  import opened Cluster
  import opened Reaching
  import FailOver

  const WRITE := Entry(1, 2, Op("ctx", "Put:::k<<>>v"))
  const EARLY_VOTE := VoteArgs(1, 0, SENTINEL)
  const LATER_VOTE := VoteArgs(2, 2, SENTINEL)
  const FIRST_BEAT := AppendArgs(2, 2, SENTINEL, [], 0)
  const APPEND_WRITE := AppendArgs(2, 2, SENTINEL, [WRITE], 0)
  const STORED := AppendReply(2, true, WRITE)
  const OPENED := Tally(SENTINEL, 0, {}, {}, [], 0, true)

  // ---------------------------------------------------------------- the servers on their own

  function Candidate(term: int, votedFor: int, tallies: map<int, Tally>): Server {
    Fresh(3).(currentTerm := term, votedFor := votedFor, tallies := tallies)
  }

  const WON := OPENED.(answered := {1}, yes := {1}, votes := 1, open := false)
  const HEARD := OPENED.(answered := {1}, yes := {1}, ballots := [true])

  function Leader(logs: seq<Entry>, rdy: seq<AppendArgs>): Server {
    Fresh(3).(currentTerm := 2, votedFor := 2, isLeader := true, tallies := map[1 := OPENED, 2 := WON],
              logs := logs, logidx := |logs| - 1, rdy := [rdy, rdy, []], nextIndex := [1, 1, 1])
  }

  lemma PushedToBoth(rdy: seq<seq<AppendArgs>>, queue: seq<AppendArgs>, a: AppendArgs)
    requires |rdy| == 3 && rdy[0] == rdy[1] == queue && rdy[2] == []
    ensures Pushed(rdy, 2, a) == [queue + [a], queue + [a], []]
  {
  }

  lemma LastVoteElectsSecondServer()
    ensures var s := Candidate(2, 2, map[1 := OPENED, 2 := HEARD]);
      CountSafe(s, 2) && CountWins(s, 2) && OnCount(s, 2, 2) == Leader([SENTINEL], [FIRST_BEAT])
  {
    var s := Candidate(2, 2, map[1 := OPENED, 2 := HEARD]);
    var t := OnCount(s, 2, 2);
    PushedToBoth(s.rdy, [], FIRST_BEAT);
    assert [] + [FIRST_BEAT] == [FIRST_BEAT] && t.nextIndex == [1, 1, 1] && t.matchIndex == s.matchIndex;
    assert HEARD.ballots[1..] == OPENED.ballots;
  }

  lemma BatchAppendsWrite()
    ensures var s := Leader([SENTINEL], [FIRST_BEAT]).(logidx := 1, jobs := [WRITE]);
      BatchSafe(s) && OnBatch(s, 2) == Leader([SENTINEL, WRITE], [FIRST_BEAT, APPEND_WRITE])
  {
    var s := Leader([SENTINEL], [FIRST_BEAT]).(logidx := 1, jobs := [WRITE]);
    var t := OnBatch(s, 2);
    assert BatchEntries(s) == [WRITE];
    assert Appended(s.logs, [WRITE], 0) == [SENTINEL] + [WRITE][0..];
    PushedToBoth(s.rdy, [FIRST_BEAT], APPEND_WRITE);
    assert [FIRST_BEAT] + [APPEND_WRITE] == [FIRST_BEAT, APPEND_WRITE];
  }

  lemma FollowerStoresWrite(f: Server)
    requires f == Candidate(2, 2, map[])
    ensures HeartBeatSafe(f, APPEND_WRITE) && OnHeartBeat(f, APPEND_WRITE).1 == STORED
    ensures !OnHeartBeat(f, APPEND_WRITE).0.isLeader
  {
    assert Merge([SENTINEL], [WRITE], 0, 0) == Some([SENTINEL] + [WRITE][0..]);
  }

  // ---------------------------------------------------------------- the run

  /** Server 0 asks for votes in term 1, and gets server 1's. */
  lemma EarlyVoteIsCast() returns (c: Config)
    ensures CleanlyReachable(3, c) && CleanConfig(c) && c.wins == {}
    ensures c.servers == [Candidate(1, 0, map[1 := OPENED]), Candidate(1, 0, map[]), Fresh(3)]
    ensures VoteResponse(1, 0, 1, VoteReply(1, true)) in c.net
  {
    StartIsReachable(3);
    c := FirstServerStands(Init(3));
    c := VoteInFirstTerm(c);
  }

  lemma FirstServerStands(c: Config) returns (d: Config)
    requires CleanlyReachable(3, c) && CleanConfig(c) && c.servers == [Fresh(3), Fresh(3), Fresh(3)]
    ensures CleanlyReachable(3, d) && CleanConfig(d) && d.wins == c.wins
    ensures d.servers == c.servers[0 := Candidate(1, 0, map[1 := OPENED])] && VoteRequest(0, 1, EARLY_VOTE) in d.net
  {
    d := TakeClean(3, c, Step(0, Elect, 0), Candidate(1, 0, map[1 := OPENED]));
  }

  lemma VoteInFirstTerm(c: Config) returns (d: Config)
    requires CleanlyReachable(3, c) && CleanConfig(c) && |c.servers| == 3
    requires c.servers[1] == Fresh(3) && VoteRequest(0, 1, EARLY_VOTE) in c.net
    ensures CleanlyReachable(3, d) && CleanConfig(d) && d.wins == c.wins
    ensures d.servers == c.servers[1 := Candidate(1, 0, map[])]
    ensures VoteResponse(1, 0, 1, VoteReply(1, true)) in d.net
  {
    d := TakeClean(3, c, Step(1, RequestVote(EARLY_VOTE), 0), Candidate(1, 0, map[]));
  }

  /** Server 2 stands, fails and stands again. */
  lemma SecondServerStands(c: Config, term: int, tallies: map<int, Tally>) returns (d: Config)
    requires CleanlyReachable(3, c) && CleanConfig(c) && |c.servers| == 3
    requires c.servers[2] == Candidate(term, if term == 0 then -1 else 2, tallies)
    ensures CleanlyReachable(3, d) && CleanConfig(d) && d.wins == c.wins && c.net <= d.net
    ensures d.servers == c.servers[2 := Candidate(term + 1, 2, tallies[term + 1 := OPENED])]
    ensures VoteRequest(2, 1, VoteArgs(term + 1, 2, SENTINEL)) in d.net
  {
    d := TakeClean(3, c, Step(2, Elect, 0), Candidate(term + 1, 2, tallies[term + 1 := OPENED]));
  }

  lemma VoteInSecondTerm(c: Config) returns (d: Config)
    requires CleanlyReachable(3, c) && CleanConfig(c) && |c.servers| == 3
    requires c.servers[1] == Candidate(1, 0, map[]) && VoteRequest(2, 1, LATER_VOTE) in c.net
    ensures CleanlyReachable(3, d) && CleanConfig(d) && d.wins == c.wins && c.net <= d.net
    ensures d.servers == c.servers[1 := Candidate(2, 2, map[])]
    ensures VoteResponse(1, 2, 2, VoteReply(2, true)) in d.net
  {
    d := TakeClean(3, c, Step(1, RequestVote(LATER_VOTE), 2), Candidate(2, 2, map[]));
  }

  lemma SecondServerHears(c: Config) returns (d: Config)
    requires CleanlyReachable(3, c) && CleanConfig(c) && |c.servers| == 3
    requires c.servers[2] == Candidate(2, 2, map[1 := OPENED, 2 := OPENED])
    requires VoteResponse(1, 2, 2, VoteReply(2, true)) in c.net
    ensures CleanlyReachable(3, d) && CleanConfig(d) && d.wins == c.wins && c.net <= d.net
    ensures d.servers == c.servers[2 := Candidate(2, 2, map[1 := OPENED, 2 := HEARD])]
  {
    var t := OnVoteReply(c.servers[2], 1, 2, VoteReply(2, true));
    assert OPENED.ballots + [true] == HEARD.ballots && OPENED.answered + {1} == {1} && OPENED.yes + {1} == {1};
    assert t.tallies == map[1 := OPENED, 2 := HEARD];
    d := TakeClean(3, c, Step(2, VoteReplied(1, 2, VoteReply(2, true)), 0), t);
  }

  lemma SecondServerWins(c: Config) returns (d: Config)
    requires CleanlyReachable(3, c) && CleanConfig(c) && c.wins == {} && |c.servers| == 3
    requires c.servers[2] == Candidate(2, 2, map[1 := OPENED, 2 := HEARD])
    ensures CleanlyReachable(3, d) && CleanConfig(d) && d.wins == {Win(2, 2)} && c.net <= d.net
    ensures d.servers == c.servers[2 := Leader([SENTINEL], [FIRST_BEAT])]
  {
    LastVoteElectsSecondServer();
    d := TakeClean(3, c, Step(2, Count(2), 0), Leader([SENTINEL], [FIRST_BEAT]));
  }

  /** The leader starts a command and batches it. */
  lemma LeaderAppends(c: Config) returns (d: Config)
    requires CleanlyReachable(3, c) && CleanConfig(c) && c.wins == {Win(2, 2)} && |c.servers| == 3
    requires c.servers[2] == Leader([SENTINEL], [FIRST_BEAT])
    ensures CleanlyReachable(3, d) && CleanConfig(d) && d.wins == c.wins && c.net <= d.net
    ensures d.servers == c.servers[2 := Leader([SENTINEL, WRITE], [FIRST_BEAT, APPEND_WRITE])]
  {
    var s := Leader([SENTINEL], [FIRST_BEAT]).(logidx := 1, jobs := [WRITE]);
    assert OnStart(c.servers[2], WRITE.cmd).0 == s;
    d := TakeClean(3, c, Step(2, Start(WRITE.cmd), 0), s);
    d := LeaderBatches(d, s);
  }

  lemma LeaderBatches(c: Config, s: Server) returns (d: Config)
    requires CleanlyReachable(3, c) && CleanConfig(c) && c.wins == {Win(2, 2)} && |c.servers| == 3
    requires c.servers[2] == s == Leader([SENTINEL], [FIRST_BEAT]).(logidx := 1, jobs := [WRITE])
    ensures CleanlyReachable(3, d) && CleanConfig(d) && d.wins == c.wins && c.net <= d.net
    ensures d.servers == c.servers[2 := Leader([SENTINEL, WRITE], [FIRST_BEAT, APPEND_WRITE])]
  {
    BatchAppendsWrite();
    d := TakeClean(3, c, Step(2, Batch, 0), OnBatch(s, 2));
  }

  /** The leader sends the next argument queued for server 1 as it is. */
  lemma LeaderSends(c: Config, a: AppendArgs, rest: seq<AppendArgs>) returns (d: Config)
    requires CleanlyReachable(3, c) && CleanConfig(c) && c.wins == {Win(2, 2)} && |c.servers| == 3
    requires |c.servers[2].rdy| == 3 && c.servers[2].rdy[1] == [a] + rest && c.servers[2].nextIndex == [1, 1, 1]
    requires c.servers[2].isLeader && c.servers[2].currentTerm == a.term == 2 && a.prevLog == SENTINEL
    ensures CleanlyReachable(3, d) && CleanConfig(d) && d.wins == c.wins && c.net <= d.net
    ensures d.servers == c.servers[2 := c.servers[2].(rdy := c.servers[2].rdy[1 := rest])]
    ensures AppendRequest(2, 1, a) in d.net
  {
    var l := c.servers[2];
    assert l.rdy[1][1..] == rest;
    d := TakeClean(3, c, Step(2, Send(1), 0), l.(rdy := l.rdy[1 := rest]));
  }

  lemma FollowerAnswers(c: Config) returns (d: Config)
    requires CleanlyReachable(3, c) && CleanConfig(c) && |c.servers| == 3
    requires c.servers[1] == Candidate(2, 2, map[]) && AppendRequest(2, 1, APPEND_WRITE) in c.net
    ensures CleanlyReachable(3, d) && CleanConfig(d) && d.wins == c.wins && c.net <= d.net && |d.servers| == 3
    ensures d.servers[0] == c.servers[0] && d.servers[2] == c.servers[2]
    ensures AppendResponse(1, 2, APPEND_WRITE, STORED) in d.net
  {
    FollowerStoresWrite(c.servers[1]);
    d := TakeClean(3, c, Step(1, HeartBeat(APPEND_WRITE), 2), OnHeartBeat(c.servers[1], APPEND_WRITE).0);
  }

  /** The leader counts the answer and commits the entry. */
  lemma LeaderCommits(c: Config) returns (d: Config)
    requires CleanlyReachable(3, c) && CleanConfig(c) && c.wins == {Win(2, 2)} && |c.servers| == 3
    requires c.servers[2] == Leader([SENTINEL, WRITE], [FIRST_BEAT, APPEND_WRITE]).(rdy := c.servers[2].rdy)
    requires |c.servers[2].rdy| == 3
    requires AppendResponse(1, 2, APPEND_WRITE, STORED) in c.net
    ensures CleanlyReachable(3, d) && CleanConfig(d) && d.wins == c.wins && c.net <= d.net && |d.servers| == 3
    ensures d.servers[0] == c.servers[0]
    ensures d.servers[2].logs == [SENTINEL, WRITE] && d.servers[2].commitIdx == 1
  {
    var s := OnAppendReply(c.servers[2], 1, APPEND_WRITE, STORED);
    d := TakeClean(3, c, Step(2, AppendReplied(1, APPEND_WRITE, STORED), 0), s);
    d := TakeClean(3, d, Step(2, Commit, 0), OnCommit(s));
  }

  /** Server 1's early vote reaches server 0, one ballot short of leading term 1. */
  lemma EarlyVoteArrives(c: Config) returns (d: Config)
    requires CleanlyReachable(3, c) && CleanConfig(c) && |c.servers| == 3
    requires c.servers[0] == Candidate(1, 0, map[1 := OPENED])
    requires VoteResponse(1, 0, 1, VoteReply(1, true)) in c.net
    ensures CleanlyReachable(3, d) && CleanConfig(d) && d.wins == c.wins && |d.servers| == 3
    ensures d.servers[2] == c.servers[2] && d.servers[0].logs == [SENTINEL] && d.servers[0].currentTerm == 1
    ensures Enabled(d, Step(0, Count(1), 0)) && Winning(d, Step(0, Count(1), 0))
  {
    d := TakeClean(3, c, Step(0, VoteReplied(1, 1, VoteReply(1, true)), 0),
              OnVoteReply(c.servers[0], 1, 1, VoteReply(1, true)));
  }

  lemma SecondServerIsVotedFor(c: Config) returns (d: Config)
    requires CleanlyReachable(3, c) && CleanConfig(c) && c.wins == {}
    requires c.servers == [Candidate(1, 0, map[1 := OPENED]), Candidate(1, 0, map[]), Fresh(3)]
    ensures CleanlyReachable(3, d) && CleanConfig(d) && d.wins == {} && c.net <= d.net
    ensures d.servers == [Candidate(1, 0, map[1 := OPENED]), Candidate(2, 2, map[]),
                          Candidate(2, 2, map[1 := OPENED, 2 := OPENED])]
    ensures VoteResponse(1, 2, 2, VoteReply(2, true)) in d.net
  {
    d := SecondServerStands(c, 0, map[]);
    d := SecondServerStands(d, 1, map[1 := OPENED]);
    d := VoteInSecondTerm(d);
  }

  lemma SecondServerLeads(c: Config) returns (d: Config)
    requires CleanlyReachable(3, c) && CleanConfig(c) && c.wins == {}
    requires c.servers == [Candidate(1, 0, map[1 := OPENED]), Candidate(1, 0, map[]), Fresh(3)]
    ensures CleanlyReachable(3, d) && CleanConfig(d) && d.wins == {Win(2, 2)} && c.net <= d.net
    ensures d.servers == [Candidate(1, 0, map[1 := OPENED]), Candidate(2, 2, map[]), Leader([SENTINEL], [FIRST_BEAT])]
  {
    d := SecondServerIsVotedFor(c);
    d := SecondServerHears(d);
    d := SecondServerWins(d);
  }

  lemma WriteIsCommitted(c: Config) returns (d: Config)
    requires CleanlyReachable(3, c) && CleanConfig(c) && c.wins == {Win(2, 2)}
    requires c.servers == [Candidate(1, 0, map[1 := OPENED]), Candidate(2, 2, map[]), Leader([SENTINEL], [FIRST_BEAT])]
    ensures CleanlyReachable(3, d) && CleanConfig(d) && d.wins == c.wins && c.net <= d.net && |d.servers| == 3
    ensures d.servers[0] == c.servers[0]
    ensures d.servers[2].logs == [SENTINEL, WRITE] && d.servers[2].commitIdx == 1
  {
    d := LeaderAppends(c);
    d := LeaderSends(d, FIRST_BEAT, [APPEND_WRITE]);
    d := LeaderSends(d, APPEND_WRITE, []);
    d := FollowerAnswers(d);
    d := LeaderCommits(d);
  }

  /** A clean run reaches a configuration whose sole winner, of term 2, has committed an entry,
      and from which a clean step makes a server leader of term 1 that does not hold it. */
  lemma EarlierWinnerLacksCommitted() returns (c: Config, st: Step)
    ensures CleanlyReachable(3, c) && |c.servers| == 3 && c.wins == {Win(2, 2)} && c.servers[2].commitIdx == 1
    ensures Enabled(c, st) && CleanStep(c, st) && Winning(c, st) && st.event.term == 1
    ensures CleanlyReachable(3, Next(c, st)) && |Next(c, st).servers| == 3
    ensures !FailOver.HoldsCommitted(Next(c, st).servers[st.at], c.servers[2])
  {
    c := EarlyVoteIsCast();
    c := SecondServerLeads(c);
    c := WriteIsCommitted(c);
    c := EarlyVoteArrives(c);
    st := Step(0, Count(1), 0);
    FailOver.WinKeepsLog(c.servers[0], 0, 1);
    var d := TakeClean(3, c, st, OnCount(c.servers[0], 0, 1));
    assert d.servers[0].logs == [SENTINEL];
  }
}
