/** A run of three servers, not clean, in which two servers apply different commands at index 1.
    A server applies an entry, a leader that kept its flag into a later term makes it drop that
    entry again, and it then wins an old election and announces its commit index together with
    a PrevLog that lies before it: a message whose commit index is past the segment it sends. */
module DivergentApply {
  import opened RaftTypes
  import opened RaftHandlers
  import opened RaftSteps
  import opened Cluster
  import opened Reaching
  import HeartBeatMerge
  import LogLemmas
  import opened DirtyRun

  const COMMITTED := Entry(1, 3, Other("committed"))
  const STALE := Entry(1, 2, Other("stale"))

  function Announce(term: int, id: int, commitIdx: int, last: Entry): AppendArgs {
    AppendArgs(term, id, last, [], commitIdx)
  }

  function Carry(term: int, id: int, e: Entry): AppendArgs {
    AppendArgs(term, id, SENTINEL, [e], 0)
  }

  // ---------------------------------------------------------------- servers

  predicate Sized(s: Server) {
    |s.rdy| == |s.nextIndex| == |s.matchIndex| == 3
  }

  predicate NothingApplied(s: Server) {
    s.commitIdx == 0 == s.lastApplied && s.applied == []
  }

  /** A server that has led nothing yet. */
  predicate Idle(s: Server, term: int) {
    && s.currentTerm == term && !s.isLeader && s.logs == [SENTINEL] && s.logidx == 0 && s.jobs == []
    && s.rdy == [[], [], []] && Sized(s) && NothingApplied(s) && s.commitChnl == [] && s.commitTracker == map[]
  }

  /** A leader with queue q and next index for server 1. */
  predicate Leads(s: Server, term: int, logs: seq<Entry>, q: seq<AppendArgs>, next: int) {
    && s.currentTerm == term && s.isLeader && s.logs == logs && s.logidx == |logs| - 1 && s.jobs == []
    && Sized(s) && s.rdy[1] == q && s.nextIndex[1] == next
  }

  /** Nothing sent to this leader has been counted. */
  predicate Uncounted(s: Server) {
    Sized(s) && NothingApplied(s) && s.matchIndex[1] == 0 && s.commitChnl == [] && s.commitTracker == map[]
  }

  predicate OneVoteHeard(s: Server, term: int) {
    && term in s.tallies && s.tallies[term].open && s.tallies[term].ballots == [true]
    && s.tallies[term].votes == 0 && s.tallies[term].lastLog == SENTINEL && s.tallies[term].commitIdx == 0
  }

  predicate Standing(s: Server, term: int) {
    Opened(s, term) && s.tallies[term].lastLog == SENTINEL && s.tallies[term].commitIdx == 0
  }

  ghost predicate Cluster3(c: Config) {
    Reachable(3, c) && |c.servers| == 3
  }

  /** A step of server i alone, that loses no message. */
  ghost predicate Only(c: Config, d: Config, i: int)
    requires |c.servers| == 3
  {
    |d.servers| == 3 && c.net <= d.net && forall j :: 0 <= j < 3 && j != i ==> d.servers[j] == c.servers[j]
  }

  // ---------------------------------------------------------------- elections

  predicate Asked(c: Config, i: int, voter: int, term: int) {
    VoteRequest(i, voter, VoteArgs(term, i, SENTINEL)) in c.net
  }

  lemma Candidacy(c: Config, i: int, term: int) returns (d: Config)
    requires Cluster3(c) && 0 <= i < 3 && Idle(c.servers[i], term - 1)
    ensures Cluster3(d) && Only(c, d, i) && Idle(d.servers[i], term) && Standing(d.servers[i], term)
    ensures forall j :: 0 <= j < 3 && j != i ==> Asked(d, i, j, term)
  {
    d := Take(3, c, Step(i, Elect, 0), OnElection(c.servers[i], i).0);
  }

  lemma Vote(c: Config, voter: int, i: int, term: int, before: int) returns (d: Config)
    requires Cluster3(c) && 0 <= i < 3 && 0 <= voter < 3 && voter != i && Idle(c.servers[voter], before)
    requires term > before && Asked(c, i, voter, term)
    ensures Cluster3(d) && Only(c, d, voter) && Idle(d.servers[voter], term)
    ensures d.servers[voter].tallies == c.servers[voter].tallies
    ensures VoteResponse(voter, i, term, VoteReply(term, true)) in d.net
  {
    var e := RequestVote(VoteArgs(term, i, SENTINEL));
    d := Take(3, c, Step(voter, e, i), OnRequestVote(c.servers[voter], e.vote).0);
  }

  lemma Hear(c: Config, i: int, voter: int, term: int) returns (d: Config)
    requires Cluster3(c) && 0 <= i < 3 && Idle(c.servers[i], term) && Standing(c.servers[i], term)
    requires VoteResponse(voter, i, term, VoteReply(term, true)) in c.net
    ensures Cluster3(d) && Only(c, d, i) && Idle(d.servers[i], term) && OneVoteHeard(d.servers[i], term)
  {
    var e := VoteReplied(voter, term, VoteReply(term, true));
    d := Take(3, c, Step(i, e, 0), OnVoteReply(c.servers[i], voter, term, e.voteReply));
  }

  lemma Win3(c: Config, i: int, term: int) returns (d: Config)
    requires Cluster3(c) && i in {0, 2} && Idle(c.servers[i], term) && OneVoteHeard(c.servers[i], term)
    ensures Cluster3(d) && Only(c, d, i) && Uncounted(d.servers[i])
    ensures Leads(d.servers[i], term, [SENTINEL], [Announce(term, i, 0, SENTINEL)], 1)
  {
    assert [] + [Announce(term, i, 0, SENTINEL)] == [Announce(term, i, 0, SENTINEL)];
    d := Take(3, c, Step(i, Count(term), 0), OnCount(c.servers[i], i, term));
  }

  /** A server stands twice, and wins the second election with server 1's vote. */
  lemma WinTerm(c: Config, i: int, term: int) returns (d: Config)
    requires Cluster3(c) && i in {0, 2} && Idle(c.servers[i], term - 1) && Idle(c.servers[1], term - 1)
    ensures Cluster3(d) && |d.servers| == 3 && c.net <= d.net && Idle(d.servers[1], term)
    ensures d.servers[2 - i] == c.servers[2 - i] && d.servers[1].tallies == c.servers[1].tallies
    ensures Uncounted(d.servers[i]) && Leads(d.servers[i], term, [SENTINEL], [Announce(term, i, 0, SENTINEL)], 1)
    ensures Asked(d, i, 2 - i, term)
  {
    d := Candidacy(c, i, term);
    assert Asked(d, i, 1, term) && Asked(d, i, 2 - i, term);
    d := Vote(d, 1, i, term, term - 1);
    d := Hear(d, i, 1, term);
    d := Win3(d, i, term);
  }

  // ---------------------------------------------------------------- leading

  lemma AppendOne(c: Config, i: int, term: int, e: Entry) returns (d: Config)
    requires Cluster3(c) && i in {0, 2} && e == Entry(1, term, e.cmd) && Uncounted(c.servers[i])
    requires Leads(c.servers[i], term, [SENTINEL], [Announce(term, i, 0, SENTINEL)], 1)
    ensures Cluster3(d) && Only(c, d, i) && Uncounted(d.servers[i])
    ensures Leads(d.servers[i], term, [SENTINEL, e], [Announce(term, i, 0, SENTINEL), Carry(term, i, e)], 1)
  {
    var s := OnStart(c.servers[i], e.cmd).0;
    assert s.jobs == [] + [e];
    d := Take(3, c, Step(i, Start(e.cmd), 0), s);
    d := BatchFirst(d, i, term, e);
  }

  lemma BatchFirst(c: Config, i: int, term: int, e: Entry) returns (d: Config)
    requires Cluster3(c) && i in {0, 2} && Started(c.servers[i], i, term, e)
    ensures Cluster3(d) && Only(c, d, i) && Uncounted(d.servers[i])
    ensures Leads(d.servers[i], term, [SENTINEL, e], [Announce(term, i, 0, SENTINEL), Carry(term, i, e)], 1)
  {
    BatchAppendsFirst(c.servers[i], i, term, e);
    d := Take(3, c, Step(i, Batch, 0), OnBatch(c.servers[i], i));
  }

  /** A leader that has queued its first job. */
  predicate Started(s: Server, i: int, term: int, e: Entry) {
    && s.currentTerm == term && s.isLeader && s.logs == [SENTINEL] && s.logidx == 1 && s.jobs == [e]
    && e.index == 1 && Uncounted(s) && s.rdy[1] == [Announce(term, i, 0, SENTINEL)] && s.nextIndex[1] == 1
  }

  lemma BatchAppendsFirst(s: Server, i: int, term: int, e: Entry)
    requires i in {0, 2} && Started(s, i, term, e)
    ensures BatchSafe(s) && Uncounted(OnBatch(s, i))
    ensures Leads(OnBatch(s, i), term, [SENTINEL, e], [Announce(term, i, 0, SENTINEL), Carry(term, i, e)], 1)
  {
    LogLemmas.BatchAppendsJobs(s);
    assert s.jobs[..BatchCount(s.jobs)] == [e] && [SENTINEL] + [e] == [SENTINEL, e];
    assert OnBatch(s, i).rdy[1] == [Announce(term, i, 0, SENTINEL)] + [Carry(term, i, e)];
  }

  /** The next argument queued for server 1 goes out as it is. */
  lemma SendNext(c: Config, i: int, term: int, logs: seq<Entry>, a: AppendArgs, rest: seq<AppendArgs>, next: int)
    returns (d: Config)
    requires Cluster3(c) && 0 <= i < 3 && Leads(c.servers[i], term, logs, [a] + rest, next) && a.prevLog.index < next
    ensures Cluster3(d) && Only(c, d, i) && Leads(d.servers[i], term, logs, rest, next)
    ensures AppendRequest(i, 1, a) in d.net && d.servers[i] == c.servers[i].(rdy := c.servers[i].rdy[1 := rest])
  {
    assert ([a] + rest)[1..] == rest;
    d := Take(3, c, Step(i, Send(1), 0), OnSend(c.servers[i], 1).0);
  }

  lemma TickOne(c: Config, i: int, term: int, logs: seq<Entry>, next: int) returns (d: Config)
    requires Cluster3(c) && i in {0, 2} && logs != [] && Leads(c.servers[i], term, logs, [], next)
    ensures Cluster3(d) && Only(c, d, i)
    ensures Leads(d.servers[i], term, logs, [Announce(term, i, c.servers[i].commitIdx, Last(logs))], next)
    ensures d.servers[i] == c.servers[i].(rdy := d.servers[i].rdy)
  {
    d := Take(3, c, Step(i, Tick, 0), OnTick(c.servers[i], i));
  }

  /** A leader whose log is ahead refuses a later candidate and stays flagged in its term. */
  lemma RefuseFirst(c: Config, logs: seq<Entry>, q: seq<AppendArgs>) returns (d: Config)
    requires Cluster3(c) && Leads(c.servers[2], 2, logs, q, 1) && logs == [SENTINEL, STALE]
    requires Asked(c, 0, 2, 3)
    ensures Cluster3(d) && Only(c, d, 2) && Leads(d.servers[2], 3, logs, q, 1)
    ensures d.servers[2] == c.servers[2].(currentTerm := 3)
  {
    var args := VoteArgs(3, 0, SENTINEL);
    d := Take(3, c, Step(2, RequestVote(args), 0), OnRequestVote(c.servers[2], args).0);
  }

  // ---------------------------------------------------------------- server 1 as follower

  /** Server 1 in term 3 with these entries, its old election still open. */
  predicate Follows(s: Server, logs: seq<Entry>, commit: nat) {
    && s.currentTerm == 3 && s.logs == logs && !s.isLeader && Sized(s) && s.rdy == [[], [], []]
    && s.commitIdx == commit == s.lastApplied
    && s.applied == (if commit == 0 then [] else [ApplyMsg(1, COMMITTED.cmd)]) && OneVoteHeard(s, 1)
  }

  lemma StoreCommitted(c: Config) returns (d: Config)
    requires Cluster3(c) && Follows(c.servers[1], [SENTINEL], 0) && AppendRequest(0, 1, Carry(3, 0, COMMITTED)) in c.net
    ensures Cluster3(d) && Only(c, d, 1) && Follows(d.servers[1], [SENTINEL, COMMITTED], 0)
    ensures AppendResponse(1, 0, Carry(3, 0, COMMITTED), AppendReply(3, true, COMMITTED)) in d.net
  {
    var a := Carry(3, 0, COMMITTED);
    assert Merge([SENTINEL], [COMMITTED], 0, 0) == Some([SENTINEL] + [COMMITTED][0..]);
    assert [SENTINEL] + [COMMITTED][0..] == [SENTINEL, COMMITTED];
    d := Take(3, c, Step(1, HeartBeat(a), 0), OnHeartBeat(c.servers[1], a).0);
  }

  lemma ApplyCommitted(c: Config) returns (d: Config)
    requires Cluster3(c) && Follows(c.servers[1], [SENTINEL, COMMITTED], 0)
    requires AppendRequest(0, 1, Announce(3, 0, 1, COMMITTED)) in c.net
    ensures Cluster3(d) && Only(c, d, 1) && Follows(d.servers[1], [SENTINEL, COMMITTED], 1)
  {
    var a := Announce(3, 0, 1, COMMITTED);
    var t := OnHeartBeat(c.servers[1], a).0;
    assert t.applied == [] + Messages([SENTINEL, COMMITTED][1..2]);
    assert t.applied == [ApplyMsg(1, COMMITTED.cmd)];
    d := Take(3, c, Step(1, HeartBeat(a), 0), t);
  }

  lemma RejectOld(c: Config) returns (d: Config)
    requires Cluster3(c) && Follows(c.servers[1], [SENTINEL, COMMITTED], 1)
    requires AppendRequest(2, 1, Announce(2, 2, 0, SENTINEL)) in c.net
    ensures Cluster3(d) && Only(c, d, 1) && d.servers == c.servers
    ensures AppendResponse(1, 2, Announce(2, 2, 0, SENTINEL), AppendReply(3, false, COMMITTED)) in d.net
  {
    var a := Announce(2, 2, 0, SENTINEL);
    d := Take(3, c, Step(1, HeartBeat(a), 2), c.servers[1]);
  }

  /** The roll-back drops the entry that was applied. */
  lemma DropCommitted(c: Config) returns (d: Config)
    requires Cluster3(c) && Follows(c.servers[1], [SENTINEL, COMMITTED], 1)
    requires AppendRequest(2, 1, Announce(3, 2, 0, STALE)) in c.net
    ensures Cluster3(d) && Only(c, d, 1) && Follows(d.servers[1], [SENTINEL], 1)
  {
    var a := Announce(3, 2, 0, STALE);
    assert RunStart([SENTINEL, COMMITTED], 1, 3) == RunStart([SENTINEL, COMMITTED], 0, 3) == 0;
    assert RolledBack([SENTINEL, COMMITTED], STALE) == [SENTINEL];
    d := Take(3, c, Step(1, HeartBeat(a), 2), OnHeartBeat(c.servers[1], a).0);
  }

  // ---------------------------------------------------------------- server 1 as leader

  /** Server 1 as leader, with this queued for server 2. */
  predicate LeadsLate(s: Server, q: seq<AppendArgs>) {
    && s.currentTerm == 3 && s.isLeader && s.logs == [SENTINEL] && s.commitIdx == 1 && Sized(s)
    && s.rdy[2] == q && s.nextIndex[2] == 1 && s.applied == [ApplyMsg(1, COMMITTED.cmd)]
  }

  lemma WinOld(c: Config) returns (d: Config)
    requires Cluster3(c) && Follows(c.servers[1], [SENTINEL], 1)
    ensures Cluster3(d) && Only(c, d, 1) && LeadsLate(d.servers[1], [Announce(1, 1, 0, SENTINEL)])
  {
    assert [] + [Announce(1, 1, 0, SENTINEL)] == [Announce(1, 1, 0, SENTINEL)];
    d := Take(3, c, Step(1, Count(1), 0), OnCount(c.servers[1], 1, 1));
  }

  lemma SendLate(c: Config, a: AppendArgs) returns (d: Config)
    requires Cluster3(c) && LeadsLate(c.servers[1], [a]) && a.prevLog == SENTINEL
    ensures Cluster3(d) && Only(c, d, 1) && LeadsLate(d.servers[1], []) && AppendRequest(1, 2, a) in d.net
  {
    assert [a][1..] == [];
    d := Take(3, c, Step(1, Send(2), 0), OnSend(c.servers[1], 2).0);
  }

  lemma TickLate(c: Config) returns (d: Config)
    requires Cluster3(c) && LeadsLate(c.servers[1], [])
    ensures Cluster3(d) && Only(c, d, 1) && LeadsLate(d.servers[1], [Announce(3, 1, 1, SENTINEL)])
  {
    d := Take(3, c, Step(1, Tick, 0), OnTick(c.servers[1], 1));
  }

  lemma ApplyStale(c: Config) returns (d: Config)
    requires Cluster3(c) && AppendRequest(1, 2, Announce(3, 1, 1, SENTINEL)) in c.net
    requires c.servers[2].currentTerm == 3 && c.servers[2].logs == [SENTINEL, STALE] && NothingApplied(c.servers[2])
    ensures Cluster3(d) && Only(c, d, 2) && d.servers[2].applied == [ApplyMsg(1, STALE.cmd)]
    ensures var a := Announce(3, 1, 1, SENTINEL);
      HeartBeatSafe(c.servers[2], a) && d.servers == c.servers[2 := OnHeartBeat(c.servers[2], a).0]
  {
    var a := Announce(3, 1, 1, SENTINEL);
    var t := OnHeartBeat(c.servers[2], a).0;
    assert t.applied == [] + Messages([SENTINEL, STALE][1..2]);
    assert t.applied == [ApplyMsg(1, STALE.cmd)];
    d := Take(3, c, Step(2, HeartBeat(a), 1), t);
  }

  // ---------------------------------------------------------------- answers to the leaders

  /** Server 0 counts the answer and commits its entry. */
  lemma CommitFirst(c: Config) returns (d: Config)
    requires Cluster3(c) && Leads(c.servers[0], 3, [SENTINEL, COMMITTED], [], 1) && Uncounted(c.servers[0])
    requires AppendResponse(1, 0, Carry(3, 0, COMMITTED), AppendReply(3, true, COMMITTED)) in c.net
    ensures Cluster3(d) && Only(c, d, 0) && Leads(d.servers[0], 3, [SENTINEL, COMMITTED], [], 2)
    ensures d.servers[0].commitIdx == 1 && d.servers[0].applied == [ApplyMsg(1, COMMITTED.cmd)]
  {
    var a, reply := Carry(3, 0, COMMITTED), AppendReply(3, true, COMMITTED);
    var s := OnAppendReply(c.servers[0], 1, a, reply);
    assert s.commitChnl == [] + [1];
    d := Take(3, c, Step(0, AppendReplied(1, a, reply), 0), s);
    var t := OnCommit(s);
    assert t.applied == [] + Messages([SENTINEL, COMMITTED][1..2]);
    assert t.applied == [ApplyMsg(1, COMMITTED.cmd)];
    d := Take(3, d, Step(0, Commit, 0), t);
  }

  /** Server 2 learns from a rejection how far server 1 is. */
  lemma LearnNext(c: Config, q: seq<AppendArgs>) returns (d: Config)
    requires Cluster3(c) && Leads(c.servers[2], 3, [SENTINEL, STALE], q, 1) && NothingApplied(c.servers[2])
    requires AppendResponse(1, 2, Announce(2, 2, 0, SENTINEL), AppendReply(3, false, COMMITTED)) in c.net
    ensures Cluster3(d) && Only(c, d, 2) && Leads(d.servers[2], 3, [SENTINEL, STALE], q, 2)
    ensures NothingApplied(d.servers[2])
  {
    var a, reply := Announce(2, 2, 0, SENTINEL), AppendReply(3, false, COMMITTED);
    d := Take(3, c, Step(2, AppendReplied(1, a, reply), 0), OnAppendReply(c.servers[2], 1, a, reply));
  }

  // ---------------------------------------------------------------- the run

  /** Server 1 stands in term 1 and has one vote that it never gets to count. */
  lemma OldElection() returns (c: Config)
    ensures Cluster3(c) && Idle(c.servers[0], 1) && Idle(c.servers[1], 1) && Idle(c.servers[2], 0)
    ensures OneVoteHeard(c.servers[1], 1)
  {
    StartIsReachable(3);
    c := Init(3);
    assert forall i :: 0 <= i < 3 ==> c.servers[i].rdy == [[], [], []];
    c := Candidacy(c, 1, 1);
    c := Vote(c, 0, 1, 1, 0);
    c := Hear(c, 1, 0, 1);
  }

  /** Server 2 leads term 2 and appends an entry that reaches no one; server 0 then wins term 3,
      which server 2 has refused. */
  lemma TwoLeaders(c: Config) returns (d: Config)
    requires Cluster3(c) && Idle(c.servers[0], 1) && Idle(c.servers[1], 1) && Idle(c.servers[2], 0)
    requires OneVoteHeard(c.servers[1], 1)
    ensures Cluster3(d) && Idle(d.servers[1], 3) && OneVoteHeard(d.servers[1], 1)
    ensures Uncounted(d.servers[0]) && Leads(d.servers[0], 3, [SENTINEL], [Announce(3, 0, 0, SENTINEL)], 1)
    ensures Leads(d.servers[2], 3, [SENTINEL, STALE], [Announce(2, 2, 0, SENTINEL), Carry(2, 2, STALE)], 1)
    ensures NothingApplied(d.servers[2])
  {
    d := Candidacy(c, 2, 1);
    d := WinTerm(d, 2, 2);
    d := AppendOne(d, 2, 2, STALE);
    d := Candidacy(d, 0, 2);
    d := WinTerm(d, 0, 3);
    d := RefuseFirst(d, [SENTINEL, STALE], [Announce(2, 2, 0, SENTINEL), Carry(2, 2, STALE)]);
  }

  /** Server 0's entry is stored at server 1, committed, and applied at both. */
  lemma CommitAtTwo(c: Config) returns (d: Config)
    requires Cluster3(c) && Idle(c.servers[1], 3) && OneVoteHeard(c.servers[1], 1)
    requires Uncounted(c.servers[0]) && Leads(c.servers[0], 3, [SENTINEL], [Announce(3, 0, 0, SENTINEL)], 1)
    ensures Cluster3(d) && d.servers[2] == c.servers[2] && Follows(d.servers[1], [SENTINEL, COMMITTED], 1)
    ensures d.servers[0].applied == [ApplyMsg(1, COMMITTED.cmd)]
  {
    d := AppendOne(c, 0, 3, COMMITTED);
    var logs := [SENTINEL, COMMITTED];
    d := SendNext(d, 0, 3, logs, Announce(3, 0, 0, SENTINEL), [Carry(3, 0, COMMITTED)], 1);
    d := SendNext(d, 0, 3, logs, Carry(3, 0, COMMITTED), [], 1);
    d := StoreCommitted(d);
    d := CommitFirst(d);
    d := TickOne(d, 0, 3, logs, 2);
    d := SendNext(d, 0, 3, logs, Announce(3, 0, 1, COMMITTED), [], 2);
    d := ApplyCommitted(d);
  }

  /** Server 2, still flagged leader, makes server 1 drop what it applied. */
  lemma DropApplied(c: Config) returns (d: Config)
    requires Cluster3(c) && Follows(c.servers[1], [SENTINEL, COMMITTED], 1) && NothingApplied(c.servers[2])
    requires Leads(c.servers[2], 3, [SENTINEL, STALE], [Announce(2, 2, 0, SENTINEL), Carry(2, 2, STALE)], 1)
    ensures Cluster3(d) && d.servers[0] == c.servers[0] && Follows(d.servers[1], [SENTINEL], 1)
    ensures Leads(d.servers[2], 3, [SENTINEL, STALE], [], 2) && NothingApplied(d.servers[2])
  {
    var logs := [SENTINEL, STALE];
    d := SendNext(c, 2, 3, logs, Announce(2, 2, 0, SENTINEL), [Carry(2, 2, STALE)], 1);
    d := RejectOld(d);
    d := LearnNext(d, [Carry(2, 2, STALE)]);
    d := SendNext(d, 2, 3, logs, Carry(2, 2, STALE), [], 2);
    d := TickOne(d, 2, 3, logs, 2);
    d := SendNext(d, 2, 3, logs, Announce(3, 2, 0, STALE), [], 2);
    d := DropCommitted(d);
  }

  /** Server 1 counts its old vote, and announces a commit index past the segment it sends. */
  lemma AnnouncePastSegment(c: Config) returns (d: Config)
    requires Cluster3(c) && Follows(c.servers[1], [SENTINEL], 1)
    ensures Cluster3(d) && d.servers[0] == c.servers[0] && d.servers[2] == c.servers[2]
    ensures d.servers[1].applied == [ApplyMsg(1, COMMITTED.cmd)]
    ensures AppendRequest(1, 2, Announce(3, 1, 1, SENTINEL)) in d.net
  {
    d := WinOld(c);
    d := SendLate(d, Announce(1, 1, 0, SENTINEL));
    d := TickLate(d);
    d := SendLate(d, Announce(3, 1, 1, SENTINEL));
  }

  /** A reachable configuration in which a request with a commit index past its segment is in the
      network, and a step later servers 0 and 1 have applied one command at index 1 and server 2
      another. */
  lemma ServersApplyDifferentCommands() returns (c: Config, d: Config, a: AppendArgs)
    ensures Reachable(3, c) && |c.servers| == 3
    ensures AppendRequest(1, 2, a) in c.net && a.leaderCommitIdx >= HeartBeatMerge.Reach(a)
    ensures Reachable(3, d) && |d.servers| == 3
    ensures HeartBeatSafe(c.servers[2], a) && d.servers == c.servers[2 := OnHeartBeat(c.servers[2], a).0]
    ensures d.servers[0].applied == d.servers[1].applied == [ApplyMsg(1, COMMITTED.cmd)]
    ensures d.servers[2].applied == [ApplyMsg(1, STALE.cmd)] && STALE.cmd != COMMITTED.cmd
  {
    c := OldElection();
    c := TwoLeaders(c);
    c := CommitAtTwo(c);
    c := DropApplied(c);
    c := AnnouncePastSegment(c);
    a := Announce(3, 1, 1, SENTINEL);
    d := ApplyStale(c);
  }
}
