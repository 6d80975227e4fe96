/** One server as a state machine: every handler call and goroutine iteration is one event. */
module RaftSteps {
  import opened RaftTypes
  import opened RaftHandlers

  datatype Event =
    | RequestVote(vote: VoteArgs)
    | HeartBeat(append: AppendArgs)
    | Start(command: Command)
    | Tick
    | Batch
    | Commit
    | Send(peer: int)
    | AppendReplied(peer: int, sent: AppendArgs, appendReply: AppendReply)
    | Elect
    | VoteReplied(peer: int, term: int, voteReply: VoteReply)
    | Count(term: int)
    | TallyTimeout(term: int)

  /** The event can happen and its code stays within bounds. */
  predicate CanHandle(s: Server, e: Event) {
    match e
    case RequestVote(args) => s.logs != []
    case HeartBeat(args) => HeartBeatSafe(s, args)
    case Start(command) => true
    case Tick => s.logs != []
    case Batch => BatchSafe(s)
    case Commit => CommitSafe(s)
    case Send(peer) => SendSafe(s, peer)
    case AppendReplied(peer, sent, reply) => AppendReplySafe(s, peer, sent, reply)
    case Elect => !s.isLeader && s.logs != []
    case VoteReplied(peer, term, reply) => term in s.tallies && peer !in s.tallies[term].answered
    case Count(term) => CountSafe(s, term)
    case TallyTimeout(term) => term in s.tallies
  }

  function Handle(s: Server, me: int, e: Event): Server
    requires CanHandle(s, e)
  {
    match e
    case RequestVote(args) => OnRequestVote(s, args).0
    case HeartBeat(args) => OnHeartBeat(s, args).0
    case Start(command) => OnStart(s, command).0
    case Tick => OnTick(s, me)
    case Batch => OnBatch(s, me)
    case Commit => OnCommit(s)
    case Send(peer) => OnSend(s, peer).0
    case AppendReplied(peer, sent, reply) => OnAppendReply(s, peer, sent, reply)
    case Elect => OnElection(s, me).0
    case VoteReplied(peer, term, reply) => OnVoteReply(s, peer, term, reply)
    case Count(term) => OnCount(s, me, term)
    case TallyTimeout(term) => OnTallyTimeout(s, term)
  }

  /** All events can be handled one after the other. */
  predicate Feasible(s: Server, me: int, events: seq<Event>)
    decreases |events|
  {
    events == [] || (CanHandle(s, events[0]) && Feasible(Handle(s, me, events[0]), me, events[1..]))
  }

  function After(s: Server, me: int, events: seq<Event>): Server
    requires Feasible(s, me, events)
    decreases |events|
  {
    if events == [] then s else After(Handle(s, me, events[0]), me, events[1..])
  }
}
