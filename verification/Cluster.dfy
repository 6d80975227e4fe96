/** A cluster of Raft servers over a network that may lose, delay, reorder and duplicate
    messages: nothing is ever removed from the set of messages sent, and any of them may be
    delivered at any time, again, or never. No server crashes. */
module Cluster {
  import opened RaftTypes
  import opened RaftHandlers
  import opened RaftSteps

  datatype Message =
    | VoteRequest(src: int, dst: int, vote: VoteArgs)
    | VoteResponse(src: int, dst: int, term: int, voteReply: VoteReply)
    | AppendRequest(src: int, dst: int, append: AppendArgs)
    | AppendResponse(src: int, dst: int, append: AppendArgs, appendReply: AppendReply)

  /** History: a vote cast, an election won, and an index acknowledged to a leader. */
  datatype Grant = Grant(voter: int, term: int, candidate: int)
  datatype Win = Win(term: int, server: int)
  datatype Ack = Ack(leader: int, peer: int, idx: int)

  /** The servers and the network, and the history of the run: the votes cast and each voter's
      last entry at the time, the elections won, the log each winner has had in its term, and
      the acknowledgements leaders have counted. */
  datatype Config = Config(
    servers: seq<Server>,
    net: set<Message>,
    grants: set<Grant>,
    voteLogs: map<(int, int), Entry>,
    wins: set<Win>,
    leaderLogs: map<int, seq<Entry>>,
    acks: set<Ack>)

  /** An event at server `at`; `src` is the sender of the request it handles, if any. */
  datatype Step = Step(at: int, event: Event, src: int)

  function Init(n: nat): Config {
    Config(seq(n, _ => Fresh(n)), {}, {}, map[], {}, map[], {})
  }

  predicate Enabled(c: Config, st: Step) {
    && 0 <= st.at < |c.servers|
    && CanHandle(c.servers[st.at], st.event)
    && match st.event
       case RequestVote(args) => VoteRequest(st.src, st.at, args) in c.net
       case HeartBeat(args) => AppendRequest(st.src, st.at, args) in c.net
       case AppendReplied(peer, sent, reply) => AppendResponse(peer, st.at, sent, reply) in c.net
       case VoteReplied(peer, term, reply) => VoteResponse(peer, st.at, term, reply) in c.net
       case _ => true
  }

  /** The messages the step sends. */
  function Sends(c: Config, st: Step): set<Message>
    requires Enabled(c, st)
  {
    var s := c.servers[st.at];
    match st.event
    case RequestVote(args) => {VoteResponse(st.at, st.src, args.term, OnRequestVote(s, args).1)}
    case HeartBeat(args) => {AppendResponse(st.at, st.src, args, OnHeartBeat(s, args).1)}
    case Send(peer) =>
      (match OnSend(s, peer).1 case None => {} case Some(args) => {AppendRequest(st.at, peer, args)})
    case Elect =>
      set p | 0 <= p < |c.servers| && p != st.at :: VoteRequest(st.at, p, OnElection(s, st.at).1)
    case _ => {}
  }

  /** The votes the step casts: a candidate votes for itself. */
  function Casts(c: Config, st: Step): set<Grant>
    requires Enabled(c, st)
  {
    var s := c.servers[st.at];
    match st.event
    case RequestVote(args) => if Grants(s, args) then {Grant(st.at, args.term, args.id)} else {}
    case Elect => {Grant(st.at, s.currentTerm + 1, st.at)}
    case _ => {}
  }

  predicate Winning(c: Config, st: Step)
    requires Enabled(c, st)
  {
    st.event.Count? && CountWins(c.servers[st.at], st.event.term)
  }

  /** The acknowledgement an append reply puts on the commit channel. */
  function Acknowledges(c: Config, st: Step): set<Ack>
    requires Enabled(c, st)
  {
    if st.event.AppendReplied? && st.event.appendReply.success &&
       st.event.appendReply.lastEntry.index > c.servers[st.at].matchIndex[st.event.peer]
    then {Ack(st.at, st.event.peer, st.event.appendReply.lastEntry.index)} else {}
  }

  function Next(c: Config, st: Step): Config
    requires Enabled(c, st)
  {
    var s := c.servers[st.at];
    var t := Handle(s, st.at, st.event);
    Config(
      c.servers[st.at := t],
      c.net + Sends(c, st),
      c.grants + Casts(c, st),
      c.voteLogs + (map g | g in Casts(c, st) :: (g.voter, g.term) := Last(s.logs)),
      if Winning(c, st) then c.wins + {Win(st.event.term, st.at)} else c.wins,
      if Winning(c, st) then c.leaderLogs[st.event.term := t.logs]
      else if st.event.Batch? && s.isLeader then c.leaderLogs[s.currentTerm := t.logs]
      else c.leaderLogs,
      c.acks + Acknowledges(c, st))
  }

  /** A run of n servers from their fresh start: the configurations passed through. */
  ghost predicate Run(n: nat, trace: seq<Config>, steps: seq<Step>) {
    && |trace| == |steps| + 1
    && trace[0] == Init(n)
    && forall k :: 0 <= k < |steps| ==> Enabled(trace[k], steps[k]) && trace[k + 1] == Next(trace[k], steps[k])
  }

  // ---------------------------------------------------------------- clean runs

  /** Every server flagged leader still has as its current term a term it won. */
  ghost predicate CleanConfig(c: Config) {
    forall i :: 0 <= i < |c.servers| && c.servers[i].isLeader ==> Win(c.servers[i].currentTerm, i) in c.wins
  }

  /** The step does not mix tenures: an election is won while its term is still current, jobs
      are batched by the leader of the jobs' own term, and a leader sends arguments of its term. */
  ghost predicate CleanStep(c: Config, st: Step)
    requires Enabled(c, st)
  {
    var s := c.servers[st.at];
    match st.event
    case Count(term) => CountWins(s, term) ==> s.currentTerm == term
    case Batch => s.isLeader && forall k :: 0 <= k < BatchCount(s.jobs) ==> s.jobs[k].term == s.currentTerm
    case Send(peer) => s.isLeader ==> s.rdy[peer][0].term == s.currentTerm
    case _ => true
  }

  ghost predicate CleanRun(n: nat, trace: seq<Config>, steps: seq<Step>) {
    && Run(n, trace, steps)
    && (forall k :: 0 <= k < |trace| ==> CleanConfig(trace[k]))
    && (forall k :: 0 <= k < |steps| ==> CleanStep(trace[k], steps[k]))
  }
}
