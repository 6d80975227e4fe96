/** A run of three servers, not clean, that breaks Log Matching: a leader refuses a later
    candidate's request, which raises its term but leaves it flagged leader, and goes on to append
    in a term that the candidate wins as well. It shows why LogMatching.LogsMatch is stated for
    clean runs. */
module DirtyRun {
  import opened RaftTypes
  import opened RaftHandlers
  import opened RaftSteps
  import HeartBeatMerge
  import LogLemmas
  import opened Cluster
  import opened Reaching

  const OLD := Entry(1, 1, Other("old"))
  const MINE := Entry(2, 2, Other("mine"))
  const FIRST := Entry(1, 2, Other("first"))
  const THEIRS := Entry(2, 2, Other("theirs"))

  // ---------------------------------------------------------------- single steps

  /** What matters of a server here. */
  predicate Is(s: Server, term: int, isLeader: bool, logs: seq<Entry>) {
    && s.currentTerm == term && s.isLeader == isLeader && s.logs == logs
    && s.logidx == |logs| - 1 && s.jobs == [] && |s.rdy| == |s.nextIndex| == |s.matchIndex| == 3
  }

  predicate Opened(s: Server, term: int) {
    && term in s.tallies && s.tallies[term].answered == {} && s.tallies[term].ballots == []
    && s.tallies[term].votes == 0 && s.tallies[term].open
  }

  /** A server stands for the next term; its requests reach every other server. */
  lemma Stand(c: Config, i: int, term: int) returns (d: Config)
    requires Reachable(3, c) && |c.servers| == 3 && 0 <= i < 3
    requires Is(c.servers[i], term, false, [SENTINEL])
    ensures Reachable(3, d) && |d.servers| == 3 && c.net <= d.net && Is(d.servers[i], term + 1, false, [SENTINEL])
    ensures forall j :: 0 <= j < 3 && j != i ==> d.servers[j] == c.servers[j]
    ensures i != 0 ==> VoteRequest(i, 0, VoteArgs(term + 1, i, SENTINEL)) in d.net
    ensures i != 2 ==> VoteRequest(i, 2, VoteArgs(term + 1, i, SENTINEL)) in d.net
    ensures Opened(d.servers[i], term + 1)
  {
    d := Take(3, c, Step(i, Elect, 0), OnElection(c.servers[i], i).0);
  }

  /** A server grants the vote of a later term. */
  lemma GiveVote(c: Config, voter: int, i: int, term: int, before: int) returns (d: Config)
    requires Reachable(3, c) && |c.servers| == 3 && 0 <= i < 3 && 0 <= voter < 3 && voter != i && term > before
    requires Is(c.servers[voter], before, false, [SENTINEL])
    requires VoteRequest(i, voter, VoteArgs(term, i, SENTINEL)) in c.net
    ensures Reachable(3, d) && |d.servers| == 3 && c.net <= d.net && Is(d.servers[voter], term, false, [SENTINEL])
    ensures forall j :: 0 <= j < 3 && j != voter ==> d.servers[j] == c.servers[j]
    ensures VoteResponse(voter, i, term, VoteReply(term, true)) in d.net
  {
    var e := RequestVote(VoteArgs(term, i, SENTINEL));
    d := Take(3, c, Step(voter, e, i), OnRequestVote(c.servers[voter], e.vote).0);
  }

  lemma HearVote(c: Config, i: int, voter: int, term: int) returns (d: Config)
    requires Reachable(3, c) && |c.servers| == 3 && 0 <= i < 3
    requires Is(c.servers[i], term, false, [SENTINEL]) && Opened(c.servers[i], term)
    requires VoteResponse(voter, i, term, VoteReply(term, true)) in c.net
    ensures Reachable(3, d) && |d.servers| == 3 && c.net <= d.net && Is(d.servers[i], term, false, [SENTINEL])
    ensures forall j :: 0 <= j < 3 && j != i ==> d.servers[j] == c.servers[j]
    ensures CountSafe(d.servers[i], term) && CountWins(d.servers[i], term)
  {
    var e := VoteReplied(voter, term, VoteReply(term, true));
    d := Take(3, c, Step(i, e, 0), OnVoteReply(c.servers[i], voter, term, e.voteReply));
  }

  lemma Lead(c: Config, i: int, term: int) returns (d: Config)
    requires Reachable(3, c) && |c.servers| == 3 && 0 <= i < 3
    requires Is(c.servers[i], term, false, [SENTINEL])
    requires CountSafe(c.servers[i], term) && CountWins(c.servers[i], term)
    ensures Reachable(3, d) && |d.servers| == 3 && c.net <= d.net && Is(d.servers[i], term, true, [SENTINEL])
    ensures forall j :: 0 <= j < 3 && j != i ==> d.servers[j] == c.servers[j]
  {
    d := Take(3, c, Step(i, Count(term), 0), OnCount(c.servers[i], i, term));
  }

  /** One vote among three makes the candidate leader. */
  lemma GetElected(c: Config, i: int, voter: int, term: int) returns (d: Config)
    requires Reachable(3, c) && |c.servers| == 3 && 0 <= i < 3
    requires Is(c.servers[i], term, false, [SENTINEL]) && Opened(c.servers[i], term)
    requires VoteResponse(voter, i, term, VoteReply(term, true)) in c.net
    ensures Reachable(3, d) && |d.servers| == 3 && c.net <= d.net && Is(d.servers[i], term, true, [SENTINEL])
    ensures forall j :: 0 <= j < 3 && j != i ==> d.servers[j] == c.servers[j]
  {
    d := HearVote(c, i, voter, term);
    d := Lead(d, i, term);
  }

  /** A server flagged leader starts a command and batches it, in whatever its term is. */
  lemma Append(c: Config, i: int, term: int, logs: seq<Entry>, e: Entry) returns (d: Config)
    requires Reachable(3, c) && |c.servers| == 3 && 0 <= i < 3 && GoodLog(logs)
    requires Is(c.servers[i], term, true, logs) && e.index == |logs| && e.term == term
    ensures Reachable(3, d) && |d.servers| == 3 && c.net <= d.net && Is(d.servers[i], term, true, logs + [e])
    ensures forall j :: 0 <= j < 3 && j != i ==> d.servers[j] == c.servers[j]
  {
    var s := OnStart(c.servers[i], e.cmd).0;
    assert s.jobs == [] + [e];
    d := Take(3, c, Step(i, Start(e.cmd), 0), s);
    d := BatchOne(d, i, s, logs, e);
  }

  lemma BatchOne(c: Config, i: int, s: Server, logs: seq<Entry>, e: Entry) returns (d: Config)
    requires Reachable(3, c) && |c.servers| == 3 && 0 <= i < 3 && GoodLog(logs) && c.servers[i] == s
    requires s.logs == logs && s.jobs == [e] && e.index == |logs| == s.logidx
    requires |s.rdy| == |s.nextIndex| == |s.matchIndex| == 3
    ensures Reachable(3, d) && |d.servers| == 3 && c.net <= d.net
    ensures Is(d.servers[i], s.currentTerm, s.isLeader, logs + [e])
    ensures forall j :: 0 <= j < 3 && j != i ==> d.servers[j] == c.servers[j]
  {
    LogLemmas.BatchAppendsJobs(s);
    assert s.jobs[..BatchCount(s.jobs)] == [e];
    d := Take(3, c, Step(i, Batch, 0), OnBatch(s, i));
  }

  /** A leader whose log is ahead refuses a later candidate, and stays flagged in the later term. */
  lemma Refuse(c: Config, i: int, candidate: int) returns (d: Config)
    requires Reachable(3, c) && |c.servers| == 3 && 0 <= i < 3
    requires Is(c.servers[i], 1, true, [SENTINEL, OLD])
    requires VoteRequest(candidate, i, VoteArgs(2, candidate, SENTINEL)) in c.net
    ensures Reachable(3, d) && |d.servers| == 3 && c.net <= d.net && Is(d.servers[i], 2, true, [SENTINEL, OLD])
    ensures forall j :: 0 <= j < 3 && j != i ==> d.servers[j] == c.servers[j]
  {
    var args := VoteArgs(2, candidate, SENTINEL);
    d := Take(3, c, Step(i, RequestVote(args), candidate), OnRequestVote(c.servers[i], args).0);
  }

  // ---------------------------------------------------------------- the run

  /** Server 0 leads term 1 and appends an entry no one else receives. */
  lemma FirstLeader() returns (c: Config)
    ensures Reachable(3, c) && |c.servers| == 3 && Is(c.servers[0], 1, true, [SENTINEL, OLD])
    ensures Is(c.servers[1], 0, false, [SENTINEL]) && Is(c.servers[2], 1, false, [SENTINEL])
  {
    StartIsReachable(3);
    assert forall i :: 0 <= i < 3 ==> Init(3).servers[i] == Fresh(3);
    c := FirstWin(Init(3));
    c := Append(c, 0, 1, [SENTINEL], OLD);
    assert [SENTINEL] + [OLD] == [SENTINEL, OLD];
  }

  lemma FirstWin(c: Config) returns (d: Config)
    requires Reachable(3, c) && |c.servers| == 3 && forall i :: 0 <= i < 3 ==> Is(c.servers[i], 0, false, [SENTINEL])
    ensures Reachable(3, d) && |d.servers| == 3 && Is(d.servers[0], 1, true, [SENTINEL])
    ensures Is(d.servers[1], 0, false, [SENTINEL]) && Is(d.servers[2], 1, false, [SENTINEL])
  {
    d := Stand(c, 0, 0);
    d := GiveVote(d, 2, 0, 1, 0);
    d := GetElected(d, 0, 2, 1);
  }

  /** Server 1 wins term 2 with server 2's vote; server 0 refused it and is still flagged leader. */
  lemma SecondLeader(c: Config) returns (d: Config)
    requires Reachable(3, c) && |c.servers| == 3 && Is(c.servers[0], 1, true, [SENTINEL, OLD])
    requires Is(c.servers[1], 0, false, [SENTINEL]) && Is(c.servers[2], 1, false, [SENTINEL])
    ensures Reachable(3, d) && |d.servers| == 3
    ensures Is(d.servers[0], 2, true, [SENTINEL, OLD]) && Is(d.servers[1], 2, true, [SENTINEL])
  {
    d := SecondCandidate(c);
    d := Refuse(d, 0, 1);
    d := GiveVote(d, 2, 1, 2, 1);
    d := GetElected(d, 1, 2, 2);
  }

  lemma SecondCandidate(c: Config) returns (d: Config)
    requires Reachable(3, c) && |c.servers| == 3 && Is(c.servers[1], 0, false, [SENTINEL])
    ensures Reachable(3, d) && |d.servers| == 3 && d.servers[0] == c.servers[0] && d.servers[2] == c.servers[2]
    ensures Is(d.servers[1], 2, false, [SENTINEL]) && Opened(d.servers[1], 2)
    ensures VoteRequest(1, 0, VoteArgs(2, 1, SENTINEL)) in d.net && VoteRequest(1, 2, VoteArgs(2, 1, SENTINEL)) in d.net
  {
    d := Stand(c, 1, 0);
    d := Stand(d, 1, 1);
  }

  /** A reachable configuration in which two logs carry the same term at the same position and
      differ there. */
  lemma LogMatchingFailsOutsideCleanRuns() returns (c: Config)
    ensures Reachable(3, c) && |c.servers| == 3
    ensures c.servers[0].logs == [SENTINEL, OLD, MINE] && c.servers[1].logs == [SENTINEL, FIRST, THEIRS]
    ensures !HeartBeatMerge.Matching(c.servers[0].logs, c.servers[1].logs)
  {
    c := FirstLeader();
    c := SecondLeader(c);
    c := Append(c, 0, 2, [SENTINEL, OLD], MINE);
    c := AppendTwo(c);
    assert [SENTINEL, OLD] + [MINE] == [SENTINEL, OLD, MINE];
    TheirsIsNotMine();
  }

  lemma AppendTwo(c: Config) returns (d: Config)
    requires Reachable(3, c) && |c.servers| == 3 && Is(c.servers[1], 2, true, [SENTINEL])
    ensures Reachable(3, d) && |d.servers| == 3 && d.servers[0] == c.servers[0]
    ensures d.servers[1].logs == [SENTINEL, FIRST, THEIRS]
  {
    d := Append(c, 1, 2, [SENTINEL], FIRST);
    d := Append(d, 1, 2, [SENTINEL] + [FIRST], THEIRS);
    assert [SENTINEL] + [FIRST] + [THEIRS] == [SENTINEL, FIRST, THEIRS];
  }

  lemma TheirsIsNotMine()
    ensures !HeartBeatMerge.Matching([SENTINEL, OLD, MINE], [SENTINEL, FIRST, THEIRS])
  {
    var mine, theirs := [SENTINEL, OLD, MINE], [SENTINEL, FIRST, THEIRS];
    assert mine[2].term == theirs[2].term && mine[..2 + 1][2] != theirs[..2 + 1][2];
  }
}
