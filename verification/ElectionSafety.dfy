/** At most one winner per term, in every run without crashes (section 5.2 of the extended
    Raft paper). */
module ElectionSafety {
  import opened RaftTypes
  import opened RaftHandlers
  import opened RaftSteps
  import opened Cluster

  function Voters(c: Config, term: int, candidate: int): set<int> {
    set p | 0 <= p < |c.servers| && Grant(p, term, candidate) in c.grants
  }

  function Trues(ballots: seq<bool>): nat {
    if ballots == [] then 0 else (if ballots[0] then 1 else 0) + Trues(ballots[1..])
  }

  /** One vote per voter and term; a voter's term is not below any it voted in, and its vote
      marker is never cleared. */
  ghost predicate VotesOk(c: Config) {
    && (forall g :: g in c.grants ==>
          && 0 <= g.voter < |c.servers|
          && g.term <= c.servers[g.voter].currentTerm && c.servers[g.voter].votedFor != -1)
    && (forall g, h :: g in c.grants && h in c.grants && g.voter == h.voter && g.term == h.term ==> g == h)
  }

  ghost predicate VoteNetOk(c: Config) {
    && (forall m :: m in c.net && m.VoteRequest? ==>
          m.vote.id == m.src && 0 <= m.src < |c.servers| && m.src != m.dst)
    && (forall m :: m in c.net && m.VoteResponse? && m.voteReply.voted ==>
          0 <= m.src < |c.servers| && m.src != m.dst && Grant(m.src, m.term, m.dst) in c.grants)
  }

  /** A candidate has voted for itself, and its count never exceeds the peers that voted for it. */
  ghost predicate TallyOk(n: nat, grants: set<Grant>, i: int, term: int, t: Tally) {
    && Grant(i, term, i) in grants
    && t.yes <= t.answered
    && (forall p :: p in t.yes ==> 0 <= p < n && p != i && Grant(p, term, i) in grants)
    && t.votes + Trues(t.ballots) <= |t.yes|
  }

  ghost predicate ServerOk(n: nat, grants: set<Grant>, i: int, s: Server) {
    && |s.rdy| == |s.nextIndex| == |s.matchIndex| == n
    && forall term :: term in s.tallies ==> term <= s.currentTerm && TallyOk(n, grants, i, term, s.tallies[term])
  }

  ghost predicate WinsOk(c: Config) {
    forall w :: w in c.wins ==>
      0 <= w.server < |c.servers| && |Voters(c, w.term, w.server)| > |c.servers| / 2
  }

  ghost predicate ElectionInv(c: Config) {
    && VotesOk(c) && VoteNetOk(c) && WinsOk(c)
    && forall i :: 0 <= i < |c.servers| ==> ServerOk(|c.servers|, c.grants, i, c.servers[i])
  }

  // ---------------------------------------------------------------- quorums

  /** The servers of a cluster of n. */
  function Range(n: nat): (r: set<int>)
    ensures forall p :: p in r <==> 0 <= p < n
    ensures |r| == n
  {
    if n == 0 then {} else Range(n - 1) + {n - 1}
  }

  lemma SubsetSize(a: set<int>, b: set<int>)
    requires a <= b
    ensures |a| <= |b|
  {
    assert b == a + (b - a);
  }

  lemma EmptyIfNone(servers: set<int>)
    ensures (forall p :: p !in servers) ==> servers == {}
  {
    if forall p :: p !in servers {
      assert servers == {};
    }
  }

  lemma AnyOf(servers: set<int>) returns (p: int)
    requires servers != {}
    ensures p in servers
  {
    EmptyIfNone(servers);
    p :| p in servers;
  }

  /** Two majorities of a cluster share a server. */
  lemma MajoritiesMeet(n: nat, a: set<int>, b: set<int>) returns (p: int)
    requires a <= Range(n) && b <= Range(n) && |a| > n / 2 && |b| > n / 2
    ensures p in a && p in b
  {
    SubsetSize(a + b, Range(n));
    assert |a + b| == |a| + |b| - |a * b|;
    assert a * b != {};
    p :| p in a * b;
  }

  // ---------------------------------------------------------------- one step

  /** What no event ever does: lower the term, clear the vote, or change the number of peers. */
  predicate Keeps(s: Server, t: Server) {
    && t.currentTerm >= s.currentTerm && (s.votedFor != -1 ==> t.votedFor != -1)
    && |t.rdy| == |s.rdy| && |t.nextIndex| == |s.nextIndex| && |t.matchIndex| == |s.matchIndex|
  }

  lemma HeartBeatKeeps(s: Server, args: AppendArgs)
    requires HeartBeatSafe(s, args)
    ensures var t := OnHeartBeat(s, args).0;
            Keeps(s, t) && t.tallies == s.tallies && t.votedFor == s.votedFor
  {
  }

  lemma BatchKeeps(s: Server, me: int)
    requires BatchSafe(s)
    ensures Keeps(s, OnBatch(s, me)) && OnBatch(s, me).tallies == s.tallies
  {
  }

  lemma CountKeeps(s: Server, me: int, term: int)
    requires CountSafe(s, term)
    ensures Keeps(s, OnCount(s, me, term))
  {
  }

  predicate TouchesTallies(e: Event) {
    e.Elect? || e.VoteReplied? || e.Count? || e.TallyTimeout?
  }

  lemma EventKeeps(s: Server, me: int, e: Event)
    requires CanHandle(s, e) && me != -1 && (e.RequestVote? ==> e.vote.id != -1)
    ensures Keeps(s, Handle(s, me, e))
    ensures !TouchesTallies(e) ==> Handle(s, me, e).tallies == s.tallies
  {
    match e
    case HeartBeat(args) => HeartBeatKeeps(s, args);
    case Batch => BatchKeeps(s, me);
    case Count(term) => CountKeeps(s, me, term);
    case _ =>
  }

  lemma StepKeepsVotes(c: Config, st: Step)
    requires ElectionInv(c) && Enabled(c, st)
    ensures VotesOk(Next(c, st))
  {
    EventKeeps(c.servers[st.at], st.at, st.event);
  }

  lemma StepKeepsVoteNet(c: Config, st: Step)
    requires ElectionInv(c) && Enabled(c, st)
    ensures VoteNetOk(Next(c, st))
  {
    var d := Next(c, st);
    assert forall m :: m in Sends(c, st) && m.VoteResponse? && m.voteReply.voted ==>
        0 <= m.src < |c.servers| && m.src != m.dst && Grant(m.src, m.term, m.dst) in d.grants;
  }

  lemma {:induction false} TruesOfAppended(ballots: seq<bool>, b: bool)
    ensures Trues(ballots + [b]) == Trues(ballots) + (if b then 1 else 0)
  {
    if ballots == [] {
    } else {
      assert (ballots + [b])[1..] == ballots[1..] + [b];
      TruesOfAppended(ballots[1..], b);
    }
  }

  /** A reply adds at most one vote to count, from a peer that has voted for the candidate. */
  lemma VoteReplyKeepsServer(n: nat, grants: set<Grant>, i: int, s: Server, peer: int, term: int, reply: VoteReply)
    requires ServerOk(n, grants, i, s) && term in s.tallies && peer !in s.tallies[term].answered
    requires reply.voted ==> 0 <= peer < n && peer != i && Grant(peer, term, i) in grants
    ensures ServerOk(n, grants, i, OnVoteReply(s, peer, term, reply))
  {
    var t := s.tallies[term];
    assert TallyOk(n, grants, i, term, t);
    TruesOfAppended(t.ballots, reply.voted);
    assert TallyOk(n, grants, i, term, OnVoteReply(s, peer, term, reply).tallies[term]);
  }

  lemma CountKeepsServer(n: nat, grants: set<Grant>, i: int, s: Server, term: int)
    requires ServerOk(n, grants, i, s) && CountSafe(s, term)
    ensures ServerOk(n, grants, i, OnCount(s, i, term))
  {
    assert TallyOk(n, grants, i, term, s.tallies[term]);
    assert TallyOk(n, grants, i, term, OnCount(s, i, term).tallies[term]);
  }

  lemma ElectionKeepsServer(n: nat, grants: set<Grant>, i: int, s: Server)
    requires ServerOk(n, grants, i, s) && s.logs != [] && Grant(i, s.currentTerm + 1, i) in grants
    ensures ServerOk(n, grants, i, OnElection(s, i).0)
  {
    var t := OnElection(s, i).0.tallies[s.currentTerm + 1];
    assert t.ballots == [] && |t.yes| == 0;
    assert TallyOk(n, grants, i, s.currentTerm + 1, t);
  }

  lemma ServerStaysOk(n: nat, before: set<Grant>, grants: set<Grant>, i: int, s: Server)
    requires ServerOk(n, before, i, s) && before <= grants
    ensures ServerOk(n, grants, i, s)
  {
    forall term | term in s.tallies
      ensures TallyOk(n, grants, i, term, s.tallies[term])
    {
      assert TallyOk(n, before, i, term, s.tallies[term]);
    }
  }

  lemma EventKeepsServer(n: nat, grants: set<Grant>, i: int, s: Server, e: Event)
    requires ServerOk(n, grants, i, s) && CanHandle(s, e) && i != -1
    requires e.RequestVote? ==> e.vote.id != -1
    requires e.Elect? ==> Grant(i, s.currentTerm + 1, i) in grants
    requires e.VoteReplied? && e.voteReply.voted ==>
               0 <= e.peer < n && e.peer != i && Grant(e.peer, e.term, i) in grants
    ensures ServerOk(n, grants, i, Handle(s, i, e))
  {
    match e
    case Elect => ElectionKeepsServer(n, grants, i, s);
    case VoteReplied(peer, term, reply) => VoteReplyKeepsServer(n, grants, i, s, peer, term, reply);
    case Count(term) => CountKeepsServer(n, grants, i, s, term);
    case TallyTimeout(term) =>
      assert TallyOk(n, grants, i, term, s.tallies[term]);
      assert TallyOk(n, grants, i, term, OnTallyTimeout(s, term).tallies[term]);
    case _ => EventKeeps(s, i, e);
  }

  lemma StepKeepsServers(c: Config, st: Step, i: int)
    requires ElectionInv(c) && Enabled(c, st) && 0 <= i < |c.servers|
    ensures ServerOk(|c.servers|, Next(c, st).grants, i, Next(c, st).servers[i])
  {
    ServerStaysOk(|c.servers|, c.grants, Next(c, st).grants, i, c.servers[i]);
    if i == st.at {
      EventKeepsServer(|c.servers|, Next(c, st).grants, i, c.servers[i], st.event);
    }
  }

  /** The candidate and the peers whose votes it counted are a majority. */
  lemma WinnerHasMajority(c: Config, st: Step)
    requires ElectionInv(c) && Enabled(c, st) && Winning(c, st)
    ensures |Voters(c, st.event.term, st.at)| > |c.servers| / 2
  {
    var t := c.servers[st.at].tallies[st.event.term];
    assert TallyOk(|c.servers|, c.grants, st.at, st.event.term, t);
    var quorum := t.yes + {st.at};
    assert quorum <= Voters(c, st.event.term, st.at);
    SubsetSize(quorum, Voters(c, st.event.term, st.at));
  }

  lemma StepKeepsWins(c: Config, st: Step)
    requires ElectionInv(c) && Enabled(c, st)
    ensures WinsOk(Next(c, st))
  {
    var d := Next(c, st);
    forall w | w in d.wins
      ensures 0 <= w.server < |d.servers| && |Voters(d, w.term, w.server)| > |d.servers| / 2
    {
      if w !in c.wins {
        WinnerHasMajority(c, st);
      }
      assert Voters(c, w.term, w.server) <= Voters(d, w.term, w.server);
      SubsetSize(Voters(c, w.term, w.server), Voters(d, w.term, w.server));
    }
  }

  lemma StepKeepsElectionInv(c: Config, st: Step)
    requires ElectionInv(c) && Enabled(c, st)
    ensures ElectionInv(Next(c, st))
  {
    StepKeepsVotes(c, st);
    StepKeepsVoteNet(c, st);
    StepKeepsWins(c, st);
    forall i | 0 <= i < |c.servers|
      ensures ServerOk(|c.servers|, Next(c, st).grants, i, Next(c, st).servers[i])
    {
      StepKeepsServers(c, st, i);
    }
  }

  // ---------------------------------------------------------------- whole runs

  lemma {:induction false} RunKeepsElectionInv(n: nat, trace: seq<Config>, steps: seq<Step>, k: nat)
    requires Run(n, trace, steps) && k < |trace|
    ensures ElectionInv(trace[k]) && |trace[k].servers| == n
  {
    if k == 0 {
    } else {
      RunKeepsElectionInv(n, trace, steps, k - 1);
      assert Enabled(trace[k - 1], steps[k - 1]) && trace[k] == Next(trace[k - 1], steps[k - 1]);
      StepKeepsElectionInv(trace[k - 1], steps[k - 1]);
    }
  }

  /** In every reachable configuration each server has cast at most one vote per term. */
  lemma OneVotePerTerm(n: nat, trace: seq<Config>, steps: seq<Step>, k: nat, g: Grant, h: Grant)
    requires Run(n, trace, steps) && k < |trace|
    requires g in trace[k].grants && h in trace[k].grants && g.voter == h.voter && g.term == h.term
    ensures g.candidate == h.candidate
  {
    RunKeepsElectionInv(n, trace, steps, k);
  }

  lemma WinsAgree(c: Config, v: Win, w: Win)
    requires ElectionInv(c) && v in c.wins && w in c.wins && v.term == w.term
    ensures v == w
  {
    var p := MajoritiesMeet(|c.servers|, Voters(c, v.term, v.server), Voters(c, w.term, w.server));
    assert Grant(p, v.term, v.server) in c.grants && Grant(p, w.term, w.server) in c.grants;
  }

  /** No term is ever won by two servers, for any cluster size and any interleaving. */
  lemma OneWinnerPerTerm(n: nat, trace: seq<Config>, steps: seq<Step>, k: nat, v: Win, w: Win)
    requires Run(n, trace, steps) && k < |trace|
    requires v in trace[k].wins && w in trace[k].wins && v.term == w.term
    ensures v.server == w.server
  {
    RunKeepsElectionInv(n, trace, steps, k);
    WinsAgree(trace[k], v, w);
  }
}
