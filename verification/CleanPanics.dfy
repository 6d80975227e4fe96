/** A clean run of five servers to a configuration in which a batch, a send and the reading of an
    answer are due at one server and each goes out of bounds: the three kinds of step that
    NoPanic.DueStepsWithinBounds leaves open. */
module CleanPanics {
  import opened RaftTypes
  import opened RaftHandlers
  import opened RaftSteps
  import opened Cluster
  import opened Reaching
  import opened NoPanic
  import LogLemmas

  const A1 := Entry(1, 1, Other("a1"))
  const A2 := Entry(2, 1, Other("a2"))
  const A3 := Entry(3, 1, Other("a3"))
  const A4 := Entry(4, 1, Other("a4"))
  const C1 := Entry(1, 2, Other("c1"))

  const BOTH := AppendArgs(1, 0, SENTINEL, [A1, A2], 0)
  const BEAT := AppendArgs(1, 0, A2, [], 0)
  const OTHER_BATCH := AppendArgs(2, 2, SENTINEL, [C1], 0)
  const REJECTION := AppendReply(2, false, A2)

  function First(term: int, id: int, last: Entry): AppendArgs {
    AppendArgs(term, id, last, [], 0)
  }

  // ---------------------------------------------------------------- servers and steps

  predicate Sized(s: Server) {
    |s.rdy| == |s.nextIndex| == |s.matchIndex| == 5
  }

  ghost predicate Clean5(c: Config) {
    CleanlyReachable(5, c) && CleanConfig(c) && |c.servers| == 5
  }

  /** A clean step of server i alone. */
  ghost predicate Only(c: Config, d: Config, i: int)
    requires |c.servers| == 5
  {
    && Clean5(d) && c.net <= d.net && c.wins <= d.wins
    && forall j :: 0 <= j < 5 && j != i ==> d.servers[j] == c.servers[j]
  }

  lemma Go(c: Config, i: int, e: Event, src: int, t: Server) returns (d: Config)
    requires Clean5(c) && Enabled(c, Step(i, e, src)) && CleanStep(c, Step(i, e, src))
    requires t == Handle(c.servers[i], i, e)
    requires t.isLeader ==> Win(t.currentTerm, i) in c.wins ||
                            (Winning(c, Step(i, e, src)) && e.term == t.currentTerm)
    ensures Only(c, d, i) && d.servers[i] == t && Sends(c, Step(i, e, src)) <= d.net
    ensures Winning(c, Step(i, e, src)) ==> Win(e.term, i) in d.wins
  {
    d := TakeClean(5, c, Step(i, e, src), t);
  }

  // ---------------------------------------------------------------- elections

  /** A server that may stand, with this last entry. */
  predicate Calm(s: Server, term: int, last: Entry) {
    && s.currentTerm == term && !s.isLeader && s.logs != [] && Last(s.logs) == last
    && s.commitIdx == 0 && s.lastApplied == 0 && Sized(s)
  }

  /** The election of this term has these ballots to count. */
  predicate Election(s: Server, term: int, answered: set<int>, ballots: seq<bool>, votes: int, last: Entry) {
    && term in s.tallies && s.tallies[term].open && s.tallies[term].answered == answered
    && s.tallies[term].ballots == ballots && s.tallies[term].votes == votes
    && s.tallies[term].lastLog == last && s.tallies[term].commitIdx == 0
  }

  predicate Asked(c: Config, i: int, voter: int, term: int, last: Entry) {
    VoteRequest(i, voter, VoteArgs(term, i, last)) in c.net
  }

  predicate Voted(c: Config, voter: int, i: int, term: int) {
    VoteResponse(voter, i, term, VoteReply(term, true)) in c.net
  }

  /** Nothing but the term, the vote and the elections of the server differs. */
  predicate OnlyElections(s: Server, t: Server) {
    t == s.(currentTerm := t.currentTerm, votedFor := t.votedFor, tallies := t.tallies)
  }

  lemma Stand(c: Config, i: int, term: int, last: Entry) returns (d: Config)
    requires Clean5(c) && 0 <= i < 5 && Calm(c.servers[i], term - 1, last)
    ensures Only(c, d, i) && Calm(d.servers[i], term, last) && Election(d.servers[i], term, {}, [], 0, last)
    ensures OnlyElections(c.servers[i], d.servers[i])
    ensures forall j :: 0 <= j < 5 && j != i ==> Asked(d, i, j, term, last)
  {
    d := Go(c, i, Elect, 0, OnElection(c.servers[i], i).0);
  }

  lemma Grant5(c: Config, voter: int, i: int, before: int, term: int, last: Entry) returns (d: Config)
    requires Clean5(c) && 0 <= i < 5 && 0 <= voter < 5 && voter != i && term > before
    requires Calm(c.servers[voter], before, SENTINEL) && Asked(c, i, voter, term, last)
    requires last.term >= 0 && last.index >= 0
    ensures Only(c, d, voter) && Calm(d.servers[voter], term, SENTINEL) && Voted(d, voter, i, term)
    ensures OnlyElections(c.servers[voter], d.servers[voter])
  {
    var args := VoteArgs(term, i, last);
    d := Go(c, voter, RequestVote(args), i, OnRequestVote(c.servers[voter], args).0);
  }

  lemma Hear(c: Config, i: int, voter: int, term: int, heard: set<int>, ballots: seq<bool>, last: Entry)
    returns (d: Config)
    requires Clean5(c) && 0 <= i < 5 && Calm(c.servers[i], term, last) && voter !in heard
    requires Election(c.servers[i], term, heard, ballots, 0, last) && Voted(c, voter, i, term)
    ensures Only(c, d, i) && Calm(d.servers[i], term, last) && OnlyElections(c.servers[i], d.servers[i])
    ensures Election(d.servers[i], term, heard + {voter}, ballots + [true], 0, last)
  {
    var reply := VoteReply(term, true);
    d := Go(c, i, VoteReplied(voter, term, reply), 0, OnVoteReply(c.servers[i], voter, term, reply));
  }

  lemma CountFirst(c: Config, i: int, term: int, heard: set<int>, last: Entry) returns (d: Config)
    requires Clean5(c) && 0 <= i < 5 && Calm(c.servers[i], term, last)
    requires Election(c.servers[i], term, heard, [true, true], 0, last)
    ensures Only(c, d, i) && Calm(d.servers[i], term, last) && OnlyElections(c.servers[i], d.servers[i])
    ensures Election(d.servers[i], term, heard, [true], 1, last)
  {
    assert [true, true][1..] == [true];
    d := Go(c, i, Count(term), 0, OnCount(c.servers[i], i, term));
  }

  /** What a win changes, elections aside. */
  predicate Wins(s: Server, t: Server, i: int, term: int, last: Entry) {
    t == s.(currentTerm := term, votedFor := t.votedFor, isLeader := true, tallies := t.tallies,
            rdy := Pushed(s.rdy, i, First(term, i, last)), nextIndex := seq(5, _ => |s.logs|),
            matchIndex := seq(5, _ => 0))
  }

  lemma CountSecond(c: Config, i: int, term: int, heard: set<int>, last: Entry) returns (d: Config)
    requires Clean5(c) && 0 <= i < 5 && Calm(c.servers[i], term, last)
    requires Election(c.servers[i], term, heard, [true], 1, last)
    ensures Only(c, d, i) && Win(term, i) in d.wins && Wins(c.servers[i], d.servers[i], i, term, last)
  {
    d := Go(c, i, Count(term), 0, OnCount(c.servers[i], i, term));
  }

  /** Two votes of five win. */
  lemma GetElected(c: Config, i: int, v: int, w: int, term: int, last: Entry) returns (d: Config)
    requires Clean5(c) && 0 <= i < 5 && Calm(c.servers[i], term, last) && v != w
    requires Election(c.servers[i], term, {}, [], 0, last) && Voted(c, v, i, term) && Voted(c, w, i, term)
    ensures Only(c, d, i) && Win(term, i) in d.wins && Sized(d.servers[i])
    ensures Wins(c.servers[i], d.servers[i], i, term, last)
  {
    d := Hear(c, i, v, term, {}, [], last);
    d := Hear(d, i, w, term, {} + {v}, [] + [true], last);
    assert [] + [true] + [true] == [true, true];
    d := CountFirst(d, i, term, {} + {v} + {w}, last);
    d := CountSecond(d, i, term, {} + {v} + {w}, last);
  }

  // ---------------------------------------------------------------- the first leader

  /** Server 0 leading term 1, with queue and next index for server 1. */
  predicate Leads(s: Server, logs: seq<Entry>, jobs: seq<Entry>, q: seq<AppendArgs>, next: int) {
    && s.currentTerm == 1 && s.isLeader && s.logs == logs && s.jobs == jobs && s.logidx == |logs| + |jobs| - 1
    && s.commitIdx == 0 && s.lastApplied == 0 && Sized(s) && s.rdy[1] == q && s.nextIndex[1] == next
    && s.matchIndex[1] >= 0
  }

  ghost predicate Leading(c: Config, logs: seq<Entry>, jobs: seq<Entry>, q: seq<AppendArgs>, next: int) {
    Clean5(c) && Win(1, 0) in c.wins && Leads(c.servers[0], logs, jobs, q, next)
  }

  lemma StartJob(c: Config, logs: seq<Entry>, jobs: seq<Entry>, q: seq<AppendArgs>, next: int, e: Entry)
    returns (d: Config)
    requires Leading(c, logs, jobs, q, next) && e == Entry(|logs| + |jobs|, 1, e.cmd)
    ensures Only(c, d, 0) && Leading(d, logs, jobs + [e], q, next) && d.servers[0].matchIndex == c.servers[0].matchIndex
  {
    d := Go(c, 0, Start(e.cmd), 0, OnStart(c.servers[0], e.cmd).0);
  }

  lemma BatchOfTwo(s: Server, q: seq<AppendArgs>)
    requires Leads(s, [SENTINEL], [A1, A2], q, 1)
    ensures BatchSafe(s) && Leads(OnBatch(s, 0), [SENTINEL, A1, A2], [], q + [BOTH], 1)
    ensures OnBatch(s, 0).matchIndex == s.matchIndex
  {
    LogLemmas.BatchAppendsJobs(s);
    assert s.jobs[..BatchCount(s.jobs)] == [A1, A2] && [SENTINEL] + [A1, A2] == [SENTINEL, A1, A2];
    assert s.jobs[BatchCount(s.jobs)..] == [];
  }

  lemma BatchBoth(c: Config, q: seq<AppendArgs>) returns (d: Config)
    requires Leading(c, [SENTINEL], [A1, A2], q, 1)
    ensures Only(c, d, 0) && Leading(d, [SENTINEL, A1, A2], [], q + [BOTH], 1)
    ensures d.servers[0].matchIndex == c.servers[0].matchIndex
  {
    BatchOfTwo(c.servers[0], q);
    d := Go(c, 0, Batch, 0, OnBatch(c.servers[0], 0));
  }

  lemma SendOne(
    c: Config, logs: seq<Entry>, jobs: seq<Entry>, a: AppendArgs, rest: seq<AppendArgs>, next: int) returns (d: Config)
    requires Leading(c, logs, jobs, [a] + rest, next) && a.prevLog.index < next && a.term == 1
    ensures Only(c, d, 0) && Leading(d, logs, jobs, rest, next) && AppendRequest(0, 1, a) in d.net
    ensures d.servers[0].matchIndex == c.servers[0].matchIndex
  {
    assert ([a] + rest)[1..] == rest;
    d := Go(c, 0, Send(1), 0, OnSend(c.servers[0], 1).0);
  }

  lemma TickOne(c: Config, jobs: seq<Entry>) returns (d: Config)
    requires Leading(c, [SENTINEL, A1, A2], jobs, [], 3)
    ensures Only(c, d, 0) && Leading(d, [SENTINEL, A1, A2], jobs, [BEAT], 3)
  {
    d := Go(c, 0, Tick, 0, OnTick(c.servers[0], 0));
  }

  // ---------------------------------------------------------------- server 1

  predicate Holds(s: Server, term: int, logs: seq<Entry>) {
    s.currentTerm == term && s.logs == logs && !s.isLeader && s.commitIdx == 0 && s.lastApplied == 0
  }

  lemma StoreBoth(c: Config) returns (d: Config)
    requires Clean5(c) && Holds(c.servers[1], 1, [SENTINEL]) && AppendRequest(0, 1, BOTH) in c.net
    ensures Only(c, d, 1) && Holds(d.servers[1], 1, [SENTINEL, A1, A2])
    ensures AppendResponse(1, 0, BOTH, AppendReply(1, true, A2)) in d.net
  {
    assert Merge([SENTINEL], [A1, A2], 0, 0) == Some([SENTINEL] + [A1, A2][0..]);
    assert [SENTINEL] + [A1, A2][0..] == [SENTINEL, A1, A2];
    d := Go(c, 1, HeartBeat(BOTH), 0, OnHeartBeat(c.servers[1], BOTH).0);
  }

  lemma HearStored(c: Config) returns (d: Config)
    requires Leading(c, [SENTINEL, A1, A2], [], [], 1) && AppendResponse(1, 0, BOTH, AppendReply(1, true, A2)) in c.net
    requires c.servers[0].matchIndex[1] == 0
    ensures Only(c, d, 0) && Leading(d, [SENTINEL, A1, A2], [], [], 3)
  {
    var reply := AppendReply(1, true, A2);
    d := Go(c, 0, AppendReplied(1, BOTH, reply), 0, OnAppendReply(c.servers[0], 1, BOTH, reply));
  }

  /** Server 1 refuses a candidate that is behind, but takes over its term. */
  lemma Refuse(c: Config) returns (d: Config)
    requires Clean5(c) && Holds(c.servers[1], 1, [SENTINEL, A1, A2]) && Asked(c, 2, 1, 2, SENTINEL)
    ensures Only(c, d, 1) && Holds(d.servers[1], 2, [SENTINEL, A1, A2])
  {
    var args := VoteArgs(2, 2, SENTINEL);
    d := Go(c, 1, RequestVote(args), 2, OnRequestVote(c.servers[1], args).0);
  }

  lemma RejectBeat(c: Config) returns (d: Config)
    requires Clean5(c) && Holds(c.servers[1], 2, [SENTINEL, A1, A2]) && AppendRequest(0, 1, BEAT) in c.net
    ensures Only(c, d, 1) && AppendResponse(1, 0, BEAT, REJECTION) in d.net
  {
    d := Go(c, 1, HeartBeat(BEAT), 0, OnHeartBeat(c.servers[1], BEAT).0);
  }

  // ---------------------------------------------------------------- the second leader

  /** Server 2 leading term 2, with a queue for server 0. */
  predicate LeadsSecond(s: Server, logs: seq<Entry>, jobs: seq<Entry>, q: seq<AppendArgs>) {
    && s.currentTerm == 2 && s.isLeader && s.logs == logs && s.jobs == jobs && s.logidx == |logs| + |jobs| - 1
    && s.commitIdx == 0 && Sized(s) && s.rdy[0] == q && s.nextIndex[0] == 1
  }

  ghost predicate LeadingSecond(c: Config, logs: seq<Entry>, jobs: seq<Entry>, q: seq<AppendArgs>) {
    Clean5(c) && Win(2, 2) in c.wins && LeadsSecond(c.servers[2], logs, jobs, q)
  }

  lemma BatchOfOne(s: Server, q: seq<AppendArgs>)
    requires LeadsSecond(s, [SENTINEL], [C1], q)
    ensures BatchSafe(s) && LeadsSecond(OnBatch(s, 2), [SENTINEL, C1], [], q + [OTHER_BATCH])
  {
    LogLemmas.BatchAppendsJobs(s);
    assert s.jobs[..BatchCount(s.jobs)] == [C1] && [SENTINEL] + [C1] == [SENTINEL, C1];
    assert s.jobs[BatchCount(s.jobs)..] == [];
  }

  lemma StartAndBatch(c: Config, q: seq<AppendArgs>) returns (d: Config)
    requires LeadingSecond(c, [SENTINEL], [], q)
    ensures Only(c, d, 2) && LeadingSecond(d, [SENTINEL, C1], [], q + [OTHER_BATCH])
  {
    assert [] + [C1] == [C1];
    d := Go(c, 2, Start(C1.cmd), 0, OnStart(c.servers[2], C1.cmd).0);
    BatchOfOne(d.servers[2], q);
    d := Go(d, 2, Batch, 0, OnBatch(d.servers[2], 2));
  }

  lemma SendZero(c: Config, a: AppendArgs, rest: seq<AppendArgs>) returns (d: Config)
    requires LeadingSecond(c, [SENTINEL, C1], [], [a] + rest) && a.prevLog == SENTINEL && a.term == 2
    ensures Only(c, d, 2) && LeadingSecond(d, [SENTINEL, C1], [], rest) && AppendRequest(2, 0, a) in d.net
  {
    assert ([a] + rest)[1..] == rest;
    d := Go(c, 2, Send(0), 0, OnSend(c.servers[2], 0).0);
  }

  /** Server 0 follows, and keeps its jobs and its queues. */
  predicate Followed(s: Server) {
    Calm(s, 2, C1) && s.logs == [SENTINEL, C1] && s.jobs == [A3, A4] && s.rdy[1] == [BEAT]
  }

  lemma Follow(c: Config) returns (d: Config)
    requires Leading(c, [SENTINEL, A1, A2], [A3, A4], [BEAT], 3) && AppendRequest(2, 0, OTHER_BATCH) in c.net
    ensures Only(c, d, 0) && Followed(d.servers[0])
  {
    var log := [SENTINEL, A1, A2];
    assert Merge(log, [C1], 0, 2) == Some(log[..1] + [C1][0..]) && log[..1] + [C1][0..] == [SENTINEL, C1];
    d := Go(c, 0, HeartBeat(OTHER_BATCH), 2, OnHeartBeat(c.servers[0], OTHER_BATCH).0);
  }

  // ---------------------------------------------------------------- the run

  lemma FreshIsCalm() returns (c: Config)
    ensures Clean5(c) && forall i :: 0 <= i < 5 ==> c.servers[i] == Fresh(5)
  {
    StartIsReachable(5);
    c := Init(5);
  }

  /** Server 0 wins term 1 with the votes of 1 and 3. */
  lemma FirstLeader() returns (c: Config)
    ensures Leading(c, [SENTINEL], [], [First(1, 0, SENTINEL)], 1) && c.servers[0].matchIndex[1] == 0
    ensures Holds(c.servers[1], 1, [SENTINEL]) && Calm(c.servers[2], 0, SENTINEL)
    ensures c.servers[2].logs == [SENTINEL] && c.servers[2].rdy[0] == [] && c.servers[2].jobs == []
    ensures c.servers[2].logidx == 0
    ensures Calm(c.servers[3], 1, SENTINEL) && Calm(c.servers[4], 0, SENTINEL)
  {
    c := FreshIsCalm();
    c := Stand(c, 0, 1, SENTINEL);
    assert Asked(c, 0, 1, 1, SENTINEL) && Asked(c, 0, 3, 1, SENTINEL);
    c := Grant5(c, 1, 0, 0, 1, SENTINEL);
    c := Grant5(c, 3, 0, 0, 1, SENTINEL);
    c := GetElected(c, 0, 1, 3, 1, SENTINEL);
    assert [] + [First(1, 0, SENTINEL)] == [First(1, 0, SENTINEL)];
  }

  /** It appends two entries, which server 1 stores and acknowledges. */
  lemma TwoEntriesStored(c: Config) returns (d: Config)
    requires Leading(c, [SENTINEL], [], [First(1, 0, SENTINEL)], 1) && c.servers[0].matchIndex[1] == 0
    requires Holds(c.servers[1], 1, [SENTINEL])
    ensures Leading(d, [SENTINEL, A1, A2], [], [], 3) && Holds(d.servers[1], 1, [SENTINEL, A1, A2])
    ensures forall j :: 2 <= j < 5 ==> d.servers[j] == c.servers[j]
  {
    var first := First(1, 0, SENTINEL);
    assert [] + [A1] + [A2] == [A1, A2] && [first] + [BOTH] == [first, BOTH];
    d := StartJob(c, [SENTINEL], [], [first], 1, A1);
    d := StartJob(d, [SENTINEL], [] + [A1], [first], 1, A2);
    d := BatchBoth(d, [first]);
    d := SendOne(d, [SENTINEL, A1, A2], [], first, [BOTH], 1);
    assert [BOTH] == [BOTH] + [];
    d := SendOne(d, [SENTINEL, A1, A2], [], BOTH, [], 1);
    d := StoreBoth(d);
    d := HearStored(d);
  }

  /** It starts two more, and queues two more heartbeats for server 1, of which one goes out. */
  lemma TwoJobsQueued(c: Config) returns (d: Config)
    requires Leading(c, [SENTINEL, A1, A2], [], [], 3)
    ensures Only(c, d, 0) && Leading(d, [SENTINEL, A1, A2], [A3, A4], [BEAT], 3) && AppendRequest(0, 1, BEAT) in d.net
  {
    var log := [SENTINEL, A1, A2];
    assert [] + [A3] + [A4] == [A3, A4] && [BEAT] == [BEAT] + [];
    d := StartJob(c, log, [], [], 3, A3);
    d := StartJob(d, log, [] + [A3], [], 3, A4);
    d := TickOne(d, [A3, A4]);
    d := SendOne(d, log, [A3, A4], BEAT, [], 3);
    d := TickOne(d, [A3, A4]);
  }

  /** Server 2 wins term 2 with the votes of 3 and 4; server 1 refuses and takes over the term. */
  lemma SecondLeader(c: Config) returns (d: Config)
    requires Clean5(c) && Holds(c.servers[1], 1, [SENTINEL, A1, A2])
    requires Calm(c.servers[2], 0, SENTINEL) && c.servers[2].logs == [SENTINEL]
    requires c.servers[2].rdy[0] == [] && c.servers[2].jobs == [] && c.servers[2].logidx == 0
    requires Calm(c.servers[3], 1, SENTINEL) && Calm(c.servers[4], 0, SENTINEL)
    ensures d.servers != [] && d.servers[0] == c.servers[0] && c.net <= d.net && c.wins <= d.wins
    ensures LeadingSecond(d, [SENTINEL], [], [First(2, 2, SENTINEL)]) && Holds(d.servers[1], 2, [SENTINEL, A1, A2])
    ensures Calm(d.servers[3], 2, SENTINEL) && Calm(d.servers[4], 2, SENTINEL)
  {
    d := Stand(c, 2, 1, SENTINEL);
    d := Stand(d, 2, 2, SENTINEL);
    assert Asked(d, 2, 1, 2, SENTINEL) && Asked(d, 2, 3, 2, SENTINEL) && Asked(d, 2, 4, 2, SENTINEL);
    d := Refuse(d);
    d := Grant5(d, 3, 2, 1, 2, SENTINEL);
    d := Grant5(d, 4, 2, 0, 2, SENTINEL);
    d := GetElected(d, 2, 3, 4, 2, SENTINEL);
    assert [] + [First(2, 2, SENTINEL)] == [First(2, 2, SENTINEL)];
  }

  /** Its entry replaces those of server 0, which follows it; server 1 rejects the heartbeat. */
  lemma FirstLeaderFollows(c: Config) returns (d: Config)
    requires LeadingSecond(c, [SENTINEL], [], [First(2, 2, SENTINEL)]) && Holds(c.servers[1], 2, [SENTINEL, A1, A2])
    requires Leading(c, [SENTINEL, A1, A2], [A3, A4], [BEAT], 3) && AppendRequest(0, 1, BEAT) in c.net
    ensures Clean5(d) && Followed(d.servers[0]) && AppendResponse(1, 0, BEAT, REJECTION) in d.net
    ensures d.servers[3] == c.servers[3] && d.servers[4] == c.servers[4]
  {
    var first := First(2, 2, SENTINEL);
    assert [first] + [OTHER_BATCH] == [first, OTHER_BATCH] && [OTHER_BATCH] == [OTHER_BATCH] + [];
    d := StartAndBatch(c, [first]);
    d := SendZero(d, first, [OTHER_BATCH]);
    d := SendZero(d, OTHER_BATCH, []);
    d := Follow(d);
    d := RejectBeat(d);
  }

  /** Server 0 leads again, with jobs and a heartbeat left over from its first term. */
  predicate LeadsAgain(s: Server) {
    && s.currentTerm == 3 && s.isLeader && s.logs == [SENTINEL, C1] && s.jobs == [A3, A4] && Sized(s)
    && s.rdy[1] == [BEAT, First(3, 0, C1)] && s.nextIndex[1] == 2
  }

  lemma LeadAgain(c: Config) returns (d: Config)
    requires Clean5(c) && Followed(c.servers[0])
    requires Calm(c.servers[3], 2, SENTINEL) && Calm(c.servers[4], 2, SENTINEL)
    ensures Clean5(d) && c.net <= d.net && LeadsAgain(d.servers[0])
  {
    d := Stand(c, 0, 3, C1);
    assert Asked(d, 0, 3, 3, C1) && Asked(d, 0, 4, 3, C1);
    d := Grant5(d, 3, 0, 2, 3, C1);
    d := Grant5(d, 4, 0, 2, 3, C1);
    d := GetElected(d, 0, 3, 4, 3, C1);
    assert [BEAT] + [First(3, 0, C1)] == [BEAT, First(3, 0, C1)];
  }

  lemma OutOfBounds(c: Config)
    requires |c.servers| == 5 && LeadsAgain(c.servers[0]) && AppendResponse(1, 0, BEAT, REJECTION) in c.net
    ensures forall e :: e in {Batch, Send(1), AppendReplied(1, BEAT, REJECTION)} ==>
              Due(c, Step(0, e, 0)) && !Enabled(c, Step(0, e, 0))
  {
    var s := c.servers[0];
    assert s.jobs[1].index - Last(s.logs).index - 1 == 2 == BatchCount(s.jobs);
  }

  /** A clean run reaches a configuration in which server 0 has a batch, a send and an answer to
      read, and each goes out of bounds. */
  lemma DueStepsGoOutOfBounds() returns (c: Config)
    ensures CleanlyReachable(5, c) && |c.servers| == 5
    ensures forall e :: e in {Batch, Send(1), AppendReplied(1, BEAT, REJECTION)} ==>
              Due(c, Step(0, e, 0)) && !Enabled(c, Step(0, e, 0))
  {
    c := FirstLeader();
    c := TwoEntriesStored(c);
    c := TwoJobsQueued(c);
    c := SecondLeader(c);
    c := FirstLeaderFollows(c);
    c := LeadAgain(c);
    OutOfBounds(c);
  }
}
