/** The values a Raft server holds and exchanges: log entries, RPC arguments and
    replies, and the whole state of one server as a value. Go slices are value
    sequences here and int32 is an unbounded int. */
module RaftTypes {

  /** What Start accepts. A committed command reaches the key/value server as a JSON
      object with the two fields of Op, or as something the server cannot read. */
  datatype Command = Nil | Op(contextId: string, cmd: string) | Other(text: string)

  datatype Entry = Entry(index: int, term: int, cmd: Command)

  /** The zero RaftLog: slot 0 of every log, and every slot of a freshly made batch. */
  const SENTINEL := Entry(0, 0, Nil)

  const MAX_ENTRIES_PER_BATCH := 30

  datatype VoteArgs = VoteArgs(term: int, id: int, log: Entry)
  datatype VoteReply = VoteReply(term: int, voted: bool)

  datatype AppendArgs = AppendArgs(
    term: int, leaderId: int, prevLog: Entry, entries: seq<Entry>, leaderCommitIdx: int)
  datatype AppendReply = AppendReply(term: int, success: bool, lastEntry: Entry)

  datatype ApplyMsg = ApplyMsg(index: int, command: Command)

  datatype Option<+T> = None | Some(value: T)

  /** One election: the goroutine that counts ballots together with the request goroutines
      that feed it. `answered` are the peers whose single request has returned, and `yes`
      those of them that answered with a vote. */
  datatype Tally = Tally(
    lastLog: Entry, commitIdx: int, answered: set<int>, yes: set<int>,
    ballots: seq<bool>, votes: int, open: bool)

  /** The fields of the Raft object, its channels, and the state its goroutines keep. */
  datatype Server = Server(
    currentTerm: int,
    votedFor: int,
    logs: seq<Entry>,
    logidx: int,
    isLeader: bool,
    commitIdx: int,
    lastApplied: int,
    nextIndex: seq<int>,
    matchIndex: seq<int>,
    jobs: seq<Entry>,             // jobsChnl
    rdy: seq<seq<AppendArgs>>,    // rdyChnl, one queue per peer
    commitChnl: seq<int>,         // commitIdxChnl
    commitTracker: map<int, int>,
    tallies: map<int, Tally>,     // by election term
    applied: seq<ApplyMsg>        // calls made to RaftKV.Apply, in order
  )

  function Last(logs: seq<Entry>): Entry
    requires logs != []
  {
    logs[|logs| - 1]
  }

  function Min(a: int, b: int): int {
    if a < b then a else b
  }

  /** A log is in step with its positions: entry i carries index i, and slot 0 is the sentinel. */
  predicate GoodLog(logs: seq<Entry>) {
    && logs != []
    && logs[0] == SENTINEL
    && forall i :: 0 <= i < |logs| ==> logs[i].index == i
  }

  /** The entries of a batch or message occupy the positions from `first` on. */
  predicate Contiguous(entries: seq<Entry>, first: int) {
    forall j :: 0 <= j < |entries| ==> entries[j].index == first + j
  }

  /** The server that Make builds from an empty persister, in a cluster of n. */
  function Fresh(n: nat): Server {
    Server(0, -1, [SENTINEL], 0, false, 0, 0,
           seq(n, _ => 0), seq(n, _ => 0), [], seq(n, _ => []), [], map[], map[], [])
  }
}
