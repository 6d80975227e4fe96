/** Elections can succeed: of any servers one has a log that all the others vote for, and from any
    point of a clean run a majority of which no member leads can elect it. */
module Electability {
  import opened RaftTypes
  import opened RaftHandlers
  import opened RaftSteps
  import opened Cluster
  import opened Reaching
  import opened ElectionSafety
  import opened LogMatching
  import HeartBeatMerge

  // ---------------------------------------------------------------- who votes for whom

  /** A request of a term the voter has not reached is granted if and only if the candidate's last
      entry is of a later term, or of the same term and not at an earlier index; in a term the
      voter is already in, it must also not have voted; in an earlier term never. */
  lemma GrantedExactly(s: Server, args: VoteArgs)
    requires s.logs != []
    ensures var (t, reply) := OnRequestVote(s, args);
      var mine := s.logs[|s.logs| - 1];
      && (reply.voted <==>
            && (args.term > s.currentTerm || (args.term == s.currentTerm && s.votedFor == -1))
            && (args.log.term > mine.term || (args.log.term == mine.term && args.log.index >= mine.index)))
      && reply.term == t.currentTerm == (if args.term > s.currentTerm then args.term else s.currentTerm)
      && t == s.(currentTerm := t.currentTerm,
                 votedFor := if reply.voted then args.id else s.votedFor,
                 isLeader := s.isLeader && !reply.voted)
  {
  }

  /** Of two entries one is up to date for the other, and being so carries over. */
  lemma UpToDateIsAnOrder(a: Entry, b: Entry, c: Entry)
    ensures UpToDate(a, b) || UpToDate(b, a)
    ensures UpToDate(a, b) && UpToDate(b, c) ==> UpToDate(a, c)
  {
  }

  /** Server `voter` grants `candidate` at a term neither has reached. */
  predicate WouldGrant(c: Config, voter: int, candidate: int)
    requires 0 <= voter < |c.servers| && 0 <= candidate < |c.servers|
    requires c.servers[voter].logs != [] && c.servers[candidate].logs != []
  {
    var term := 1 + Max(c.servers[voter].currentTerm, c.servers[candidate].currentTerm);
    OnRequestVote(c.servers[voter], VoteArgs(term, candidate, Last(c.servers[candidate].logs))).1.voted
  }

  function Max(a: int, b: int): int {
    if a < b then b else a
  }

  predicate HaveLogs(c: Config) {
    forall i :: 0 <= i < |c.servers| ==> c.servers[i].logs != []
  }

  /** In a clean run the vote goes by the logs alone: to a log whose last entry is of a later term,
      or one that has all of the voter's. */
  lemma VotesFollowLogs(n: nat, trace: seq<Config>, steps: seq<Step>, k: nat, voter: int, candidate: int)
    requires CleanRun(n, trace, steps) && k < |trace| && 0 <= voter < n && 0 <= candidate < n
    ensures |trace[k].servers| == n && HaveLogs(trace[k])
    ensures var mine, theirs := trace[k].servers[voter].logs, trace[k].servers[candidate].logs;
      WouldGrant(trace[k], voter, candidate) <==>
        mine[|mine| - 1].term < theirs[|theirs| - 1].term || mine <= theirs
  {
    CleanRunHasLogs(n, trace, steps, k);
    CleanRunKeepsLogInv(n, trace, steps, k);
    GrantFollowsLogs(trace[k], voter, candidate);
  }

  lemma GrantFollowsLogs(c: Config, voter: int, candidate: int)
    requires LogInv(c) && HaveLogs(c) && 0 <= voter < |c.servers| && 0 <= candidate < |c.servers|
    ensures var mine, theirs := c.servers[voter].logs, c.servers[candidate].logs;
      WouldGrant(c, voter, candidate) <==> mine[|mine| - 1].term < theirs[|theirs| - 1].term || mine <= theirs
  {
    assert LogServerOk(c.leaderLogs, c.wins, voter, c.servers[voter]);
    assert LogServerOk(c.leaderLogs, c.wins, candidate, c.servers[candidate]);
    AgedToItsLast(c, candidate);
    NewerOrLonger(c.leaderLogs, c.servers[voter].logs, c.servers[candidate].logs);
    GrantIsUpToDate(c, voter, candidate);
  }

  lemma GrantIsUpToDate(c: Config, voter: int, candidate: int)
    requires HaveLogs(c) && 0 <= voter < |c.servers| && 0 <= candidate < |c.servers|
    ensures WouldGrant(c, voter, candidate) <==>
            UpToDate(Last(c.servers[candidate].logs), Last(c.servers[voter].logs))
  {
  }

  lemma CleanRunHasLogs(n: nat, trace: seq<Config>, steps: seq<Step>, k: nat)
    requires CleanRun(n, trace, steps) && k < |trace|
    ensures |trace[k].servers| == n && HaveLogs(trace[k])
  {
    CleanRunKeepsLogInv(n, trace, steps, k);
    forall i | 0 <= i < n
      ensures trace[k].servers[i].logs != []
    {
      assert LogServerOk(trace[k].leaderLogs, trace[k].wins, i, trace[k].servers[i]);
    }
  }

  lemma AgedToItsLast(c: Config, i: int)
    requires LogInv(c) && 0 <= i < |c.servers|
    ensures var log := c.servers[i].logs; log != [] && HeartBeatMerge.Aged(log, Last(log).term)
  {
    assert LogServerOk(c.leaderLogs, c.wins, i, c.servers[i]);
    PinnedIsAged(c.leaderLogs, c.servers[i].logs, c.servers[i].currentTerm);
  }

  lemma NewerOrLonger(ll: LeaderLogs, mine: seq<Entry>, theirs: seq<Entry>)
    requires LogOk(ll, mine) && LogOk(ll, theirs)
    requires HeartBeatMerge.Aged(theirs, Last(theirs).term)
    ensures UpToDate(Last(theirs), Last(mine)) <==> Last(mine).term < Last(theirs).term || mine <= theirs
  {
    var m := |mine| - 1;
    assert mine[..m + 1] == mine && theirs[..|theirs|] == theirs;
    if Last(mine).term == Last(theirs).term && |mine| <= |theirs| && m > 0 {
      assert ll[Last(mine).term][..|theirs|][..m + 1] == ll[Last(mine).term][..m + 1];
    }
    if mine <= theirs {
      assert theirs[m] == mine[m];
    }
  }

  // ---------------------------------------------------------------- a candidate for any majority

  /** Any servers have one among them that each of them would vote for. */
  lemma {:induction false} SomeoneIsElectable(c: Config, members: set<int>) returns (m: int)
    requires HaveLogs(c) && members != {} && forall i :: i in members ==> 0 <= i < |c.servers|
    ensures m in members && forall i :: i in members ==> WouldGrant(c, i, m)
    decreases members
  {
    var i := AnyOf(members);
    if members == {i} {
      m := i;
    } else {
      var rest := members - {i};
      assert members == rest + {i};
      var best := SomeoneIsElectable(c, rest);
      m := BetterOf(c, rest, best, i);
    }
  }

  lemma BetterOf(c: Config, rest: set<int>, best: int, i: int) returns (m: int)
    requires HaveLogs(c) && best in rest && 0 <= i < |c.servers| && forall j :: j in rest ==> 0 <= j < |c.servers|
    requires forall j :: j in rest ==> WouldGrant(c, j, best)
    ensures m in {best, i} && WouldGrant(c, i, m) && forall j :: j in rest ==> WouldGrant(c, j, m)
  {
    var a, b := Last(c.servers[best].logs), Last(c.servers[i].logs);
    m := if UpToDate(a, b) then best else i;
    forall j | j in rest
      ensures WouldGrant(c, j, m)
    {
      assert WouldGrant(c, j, best);
      UpToDateIsAnOrder(b, a, Last(c.servers[j].logs));
    }
  }

  lemma {:induction false} TermPastAll(c: Config, members: set<int>) returns (term: int)
    requires forall i :: i in members ==> 0 <= i < |c.servers|
    ensures forall i :: i in members ==> c.servers[i].currentTerm < term
    decreases members
  {
    if members == {} {
      term := 0;
    } else {
      var i := AnyOf(members);
      var rest := TermPastAll(c, members - {i});
      term := Max(rest, c.servers[i].currentTerm + 1);
    }
  }

  // ---------------------------------------------------------------- one election

  lemma CleanFacts(n: nat, c: Config)
    requires CleanlyReachable(n, c)
    ensures |c.servers| == n && CleanConfig(c) && HaveLogs(c)
    ensures forall i :: 0 <= i < n ==>
      && |c.servers[i].rdy| == |c.servers[i].nextIndex| == |c.servers[i].matchIndex| == n
      && (forall term :: term in c.servers[i].tallies ==> term <= c.servers[i].currentTerm)
  {
    var trace, steps :| CleanRun(n, trace, steps) && trace[|steps|] == c;
    CleanRunHasLogs(n, trace, steps, |steps|);
    CleanRunKeepsLogInv(n, trace, steps, |steps|);
    forall i | 0 <= i < n
      ensures |c.servers[i].rdy| == |c.servers[i].nextIndex| == |c.servers[i].matchIndex| == n
      ensures forall term :: term in c.servers[i].tallies ==> term <= c.servers[i].currentTerm
    {
      assert ServerOk(n, c.grants, i, c.servers[i]);
    }
  }

  /** No log differs, and servers other than m and the voters are as they were. */
  ghost predicate OnlyElecting(c: Config, d: Config, m: int, voters: set<int>) {
    && |d.servers| == |c.servers|
    && (forall i :: 0 <= i < |c.servers| ==> d.servers[i].logs == c.servers[i].logs)
    && (forall i :: 0 <= i < |c.servers| && i != m && i !in voters ==> d.servers[i] == c.servers[i])
  }

  /** Server m stands in the term. These have voted for it, and so many ballots wait. */
  ghost predicate Canvasses(n: nat, c: Config, m: int, term: int, voters: set<int>, ballots: seq<bool>, votes: int) {
    && CleanlyReachable(n, c) && CleanConfig(c) && |c.servers| == n && 0 <= m < n && HaveLogs(c)
    && c.servers[m].currentTerm == term && !c.servers[m].isLeader && term in c.servers[m].tallies
    && (var t := c.servers[m].tallies[term];
        t.open && t.answered == voters && t.ballots == ballots && t.votes == votes)
    && (forall p :: 0 <= p < n && p != m ==> Asks(c, m, p, term))
  }

  /** The request for the server's vote is in the network. */
  predicate Asks(c: Config, m: int, p: int, term: int)
    requires 0 <= m < |c.servers| && c.servers[m].logs != []
  {
    VoteRequest(m, p, VoteArgs(term, m, Last(c.servers[m].logs))) in c.net
  }

  lemma StandOnce(n: nat, c: Config, m: int) returns (d: Config)
    requires CleanlyReachable(n, c) && |c.servers| == n && 0 <= m < n && !c.servers[m].isLeader
    ensures OnlyElecting(c, d, m, {}) && Canvasses(n, d, m, c.servers[m].currentTerm + 1, {}, [], 0)
  {
    CleanFacts(n, c);
    var (t, args) := OnElection(c.servers[m], m);
    d := TakeClean(n, c, Step(m, Elect, 0), t);
    CleanFacts(n, d);
    forall p | 0 <= p < n && p != m
      ensures Asks(d, m, p, t.currentTerm)
    {
      assert VoteRequest(m, p, args) in Sends(c, Step(m, Elect, 0));
    }
  }

  /** It stands again and again until it is in the term. */
  lemma {:induction false} StandIn(n: nat, c: Config, m: int, term: int) returns (d: Config)
    requires CleanlyReachable(n, c) && |c.servers| == n && 0 <= m < n && !c.servers[m].isLeader
    requires c.servers[m].currentTerm < term
    ensures OnlyElecting(c, d, m, {}) && Canvasses(n, d, m, term, {}, [], 0)
    decreases term - c.servers[m].currentTerm
  {
    d := StandOnce(n, c, m);
    if d.servers[m].currentTerm < term {
      d := StandIn(n, d, m, term);
    }
  }

  lemma GetVote(n: nat, c: Config, m: int, term: int, voters: set<int>, p: int) returns (d: Config)
    requires Canvasses(n, c, m, term, voters, [], |voters|) && 0 <= p < n && p != m
    requires c.servers[p].currentTerm < term && UpToDate(Last(c.servers[m].logs), Last(c.servers[p].logs))
    ensures OnlyElecting(c, d, m, {p}) && Canvasses(n, d, m, term, voters, [], |voters|)
    ensures VoteResponse(p, m, term, VoteReply(term, true)) in d.net
  {
    var args := VoteArgs(term, m, Last(c.servers[m].logs));
    assert Asks(c, m, p, term);
    var st := Step(p, RequestVote(args), m);
    GrantedExactly(c.servers[p], args);
    d := TakeClean(n, c, st, OnRequestVote(c.servers[p], args).0);
    assert VoteResponse(p, m, term, VoteReply(term, true)) in Sends(c, st);
    RequestsStay(n, c, d, m, term);
  }

  lemma RequestsStay(n: nat, c: Config, d: Config, m: int, term: int)
    requires |c.servers| == n == |d.servers| && 0 <= m < n && c.net <= d.net
    requires c.servers[m].logs == d.servers[m].logs != []
    requires forall p :: 0 <= p < n && p != m ==> Asks(c, m, p, term)
    ensures forall p :: 0 <= p < n && p != m ==> Asks(d, m, p, term)
  {
    forall p | 0 <= p < n && p != m
      ensures Asks(d, m, p, term)
    {
      assert Asks(c, m, p, term);
    }
  }

  lemma HearVote(n: nat, c: Config, m: int, term: int, voters: set<int>, p: int) returns (d: Config)
    requires Canvasses(n, c, m, term, voters, [], |voters|) && p !in voters
    requires VoteResponse(p, m, term, VoteReply(term, true)) in c.net
    ensures OnlyElecting(c, d, m, {}) && Canvasses(n, d, m, term, voters + {p}, [true], |voters|)
  {
    var reply := VoteReply(term, true);
    d := TakeClean(n, c, Step(m, VoteReplied(p, term, reply), 0), OnVoteReply(c.servers[m], p, term, reply));
    assert [] + [true] == [true];
    RequestsStay(n, c, d, m, term);
  }

  /** A vote short of half the peers is counted. */
  lemma CountVote(n: nat, c: Config, m: int, term: int, voters: set<int>) returns (d: Config)
    requires Canvasses(n, c, m, term, voters, [true], |voters| - 1) && |voters| < n / 2
    ensures OnlyElecting(c, d, m, {}) && Canvasses(n, d, m, term, voters, [], |voters|)
  {
    CleanFacts(n, c);
    assert [true][1..] == [];
    d := TakeClean(n, c, Step(m, Count(term), 0), OnCount(c.servers[m], m, term));
    RequestsStay(n, c, d, m, term);
  }

  /** The vote that makes half the peers wins. */
  lemma CountLastVote(n: nat, c: Config, m: int, term: int, voters: set<int>) returns (d: Config)
    requires Canvasses(n, c, m, term, voters, [true], |voters| - 1) && |voters| == n / 2
    ensures OnlyElecting(c, d, m, {}) && Elected(n, d, m, term)
  {
    CleanFacts(n, c);
    d := TakeClean(n, c, Step(m, Count(term), 0), OnCount(c.servers[m], m, term));
  }

  /** Server m leads the term it won. */
  ghost predicate Elected(n: nat, d: Config, m: int, term: int) {
    && CleanlyReachable(n, d) && |d.servers| == n && 0 <= m < n
    && Win(term, m) in d.wins && d.servers[m].isLeader && d.servers[m].currentTerm == term
  }

  lemma TakeVote(n: nat, c: Config, m: int, term: int, voters: set<int>, p: int) returns (d: Config)
    requires Canvasses(n, c, m, term, voters, [], |voters|) && 0 <= p < n && p != m && p !in voters
    requires c.servers[p].currentTerm < term && UpToDate(Last(c.servers[m].logs), Last(c.servers[p].logs))
    ensures OnlyElecting(c, d, m, {p}) && Canvasses(n, d, m, term, voters + {p}, [true], |voters|)
  {
    d := GetVote(n, c, m, term, voters, p);
    d := HearVote(n, d, m, term, voters, p);
  }

  /** The candidate asks one willing server after the other until it has won. */
  lemma {:induction false} CollectVotes(n: nat, c: Config, m: int, term: int, voters: set<int>, willing: set<int>)
    returns (d: Config)
    requires Canvasses(n, c, m, term, voters, [], |voters|) && |voters| < n / 2 <= |voters| + |willing|
    requires forall p :: p in willing ==>
      && 0 <= p < n && p != m && p !in voters && c.servers[p].currentTerm < term
      && UpToDate(Last(c.servers[m].logs), Last(c.servers[p].logs))
    ensures OnlyElecting(c, d, m, willing) && Elected(n, d, m, term)
    decreases willing
  {
    assert willing != {};
    var p := AnyOf(willing);
    d := TakeVote(n, c, m, term, voters, p);
    assert |voters + {p}| == |voters| + 1 && |willing - {p}| == |willing| - 1;
    if |voters| + 1 == n / 2 {
      d := CountLastVote(n, d, m, term, voters + {p});
    } else {
      d := CountVote(n, d, m, term, voters + {p});
      d := CollectVotes(n, d, m, term, voters + {p}, willing - {p});
    }
  }

  /** From any point of a clean run of two servers or more, a majority of which no member leads can
      elect one of its members, in a term past all of theirs and without losing a log entry: the
      run goes on cleanly to where that server leads. */
  lemma MajorityCanElect(n: nat, c: Config, members: set<int>) returns (d: Config, m: int, term: int)
    requires n >= 2 && CleanlyReachable(n, c) && |c.servers| == n
    requires members <= Range(n) && |members| > n / 2
    requires forall i :: i in members ==> !c.servers[i].isLeader
    ensures m in members && Elected(n, d, m, term) && OnlyElecting(c, d, m, members)
    ensures forall i :: i in members ==> c.servers[i].currentTerm < term
  {
    CleanFacts(n, c);
    m := SomeoneIsElectable(c, members);
    term := TermPastAll(c, members);
    d := StandIn(n, c, m, term);
    forall p | p in members
      ensures UpToDate(Last(c.servers[m].logs), Last(c.servers[p].logs))
    {
      assert WouldGrant(c, p, m);
    }
    assert |members - {m}| == |members| - 1;
    d := CollectVotes(n, d, m, term, {}, members - {m});
  }
}
