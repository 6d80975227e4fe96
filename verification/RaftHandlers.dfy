/** Every RPC handler and goroutine body of a Raft server as a function from the server's
    state to its next state. The `...Safe` predicates say when the Go code indexes and
    slices within bounds, that is, when it does not panic. */
module RaftHandlers {
  import opened RaftTypes

  // ---------------------------------------------------------------- RequestVote

  predicate UpToDate(candidate: Entry, mine: Entry) {
    mine.term < candidate.term || (mine.term == candidate.term && mine.index <= candidate.index)
  }

  predicate Grants(s: Server, args: VoteArgs)
    requires s.logs != []
  {
    && args.term >= s.currentTerm
    && (args.term > s.currentTerm || s.votedFor == -1)
    && UpToDate(args.log, Last(s.logs))
  }

  function OnRequestVote(s: Server, args: VoteArgs): (Server, VoteReply)
    requires s.logs != []
  {
    if args.term < s.currentTerm then
      (s, VoteReply(s.currentTerm, false))
    else if Grants(s, args) then
      (s.(currentTerm := args.term, votedFor := args.id, isLeader := false), VoteReply(args.term, true))
    else
      (s.(currentTerm := args.term), VoteReply(args.term, false))
  }

  // ---------------------------------------------------------------- HeartBeat

  /** The last position at or below i that is not part of the run of `term` ending at i. */
  function RunStart(logs: seq<Entry>, i: nat, term: int): (k: nat)
    requires i < |logs|
    ensures k <= i
    ensures forall j :: k < j <= i ==> logs[j].term == term
    ensures k == 0 || logs[k].term != term
  {
    if logs[i].term == term && i != 0 then RunStart(logs, i - 1, term) else i
  }

  predicate Conflicts(logs: seq<Entry>, prev: Entry)
    requires prev.index >= 0
  {
    prev.index < |logs| && logs[prev.index].term != prev.term
  }

  function RolledBack(logs: seq<Entry>, prev: Entry): (r: seq<Entry>)
    requires prev.index >= 0 && Conflicts(logs, prev)
    ensures r != []
  {
    logs[..RunStart(logs, prev.index, logs[prev.index].term) + 1]
  }

  /** The merge loop from entry i on; `last` is the index of the last entry before the merge.
      None is the early return on a gap. */
  function Merge(logs: seq<Entry>, entries: seq<Entry>, i: nat, last: int): (r: Option<seq<Entry>>)
    requires i <= |entries| && logs != []
    requires forall e :: e in entries ==> e.index >= 0
    ensures r.Some? ==> r.value != []
    decreases |entries| - i
  {
    if i == |entries| then Some(logs)
    else
      var v := entries[i];
      if v.index == |logs| then Some(logs + entries[i..])
      else if v.index < |logs| && logs[v.index].term != v.term then Some(logs[..v.index] + entries[i..])
      else if v.index > last then None
      else Merge(logs, entries, i + 1, last)
  }

  function Messages(entries: seq<Entry>): (r: seq<ApplyMsg>)
    ensures |r| == |entries|
    ensures forall i :: 0 <= i < |r| ==> r[i] == ApplyMsg(entries[i].index, entries[i].cmd)
  {
    seq(|entries|, i requires 0 <= i < |entries| => ApplyMsg(entries[i].index, entries[i].cmd))
  }

  /** Whether a follower whose log is now `logs` advances its commit index. */
  predicate Advances(logs: seq<Entry>, commitIdx: int, lastApplied: int, leaderCommitIdx: int)
    requires logs != []
  {
    leaderCommitIdx > commitIdx && Min(Last(logs).index, leaderCommitIdx) > lastApplied
  }

  predicate FollowerApplySafe(logs: seq<Entry>, commitIdx: int, lastApplied: int, leaderCommitIdx: int)
    requires logs != []
  {
    Advances(logs, commitIdx, lastApplied, leaderCommitIdx) ==>
      0 <= lastApplied + 1 && Min(Last(logs).index, leaderCommitIdx) + 1 <= |logs|
  }

  function FollowerApply(s: Server, leaderCommitIdx: int): Server
    requires s.logs != [] && FollowerApplySafe(s.logs, s.commitIdx, s.lastApplied, leaderCommitIdx)
  {
    if Advances(s.logs, s.commitIdx, s.lastApplied, leaderCommitIdx) then
      var c := Min(Last(s.logs).index, leaderCommitIdx);
      s.(lastApplied := c, commitIdx := c, applied := s.applied + Messages(s.logs[s.lastApplied + 1..c + 1]))
    else s
  }

  /** The consistency check on PrevLog passes. */
  predicate Consistent(logs: seq<Entry>, prev: Entry)
    requires logs != [] && prev.index >= 0
  {
    !Conflicts(logs, prev) && prev.index <= Last(logs).index
  }

  predicate HeartBeatSafe(s: Server, args: AppendArgs) {
    && s.logs != []
    && args.prevLog.index >= 0
    && (forall e :: e in args.entries ==> e.index >= 0)
    && (args.term >= s.currentTerm && Consistent(s.logs, args.prevLog) ==>
          match Merge(s.logs, args.entries, 0, Last(s.logs).index)
          case None => true
          case Some(l) => FollowerApplySafe(l, s.commitIdx, s.lastApplied, args.leaderCommitIdx))
  }

  function OnHeartBeat(s: Server, args: AppendArgs): (Server, AppendReply)
    requires HeartBeatSafe(s, args)
  {
    var reply := AppendReply(s.currentTerm, false, Last(s.logs));
    if args.term < s.currentTerm then (s, reply)
    else
      var s1 := s.(currentTerm := args.term, isLeader := false);
      if Conflicts(s.logs, args.prevLog) then
        var l := RolledBack(s.logs, args.prevLog);
        (s1.(logs := l, logidx := Last(l).index), reply.(lastEntry := Last(l)))
      else if args.prevLog.index > Last(s.logs).index then (s1, reply)
      else
        match Merge(s.logs, args.entries, 0, Last(s.logs).index)
        case None => (s1, reply)
        case Some(l) =>
          (FollowerApply(s1.(logs := l, logidx := Last(l).index), args.leaderCommitIdx),
           reply.(lastEntry := Last(l), success := Last(l).index >= args.prevLog.index))
  }

  // ---------------------------------------------------------------- Start

  datatype StartReply = StartReply(index: int, term: int, isLeader: bool)

  function OnStart(s: Server, command: Command): (Server, StartReply) {
    if !s.isLeader then (s, StartReply(0, 0, false))
    else
      var index := s.logidx + 1;
      (s.(logidx := index, jobs := s.jobs + [Entry(index, s.currentTerm, command)]),
       StartReply(index, s.currentTerm, true))
  }

  // ---------------------------------------------------------------- heartbeat tick

  function OnTick(s: Server, me: int): Server
    requires s.logs != []
  {
    var args := AppendArgs(s.currentTerm, me, Last(s.logs), [], s.commitIdx);
    s.(rdy := seq(|s.rdy|, i requires 0 <= i < |s.rdy| =>
        if s.rdy[i] != [] || i == me then s.rdy[i] else [args]))
  }

  // ---------------------------------------------------------------- job batching

  function BatchCount(jobs: seq<Entry>): (count: nat)
    ensures count <= |jobs| && count <= MAX_ENTRIES_PER_BATCH
  {
    if |jobs| < MAX_ENTRIES_PER_BATCH then |jobs| else MAX_ENTRIES_PER_BATCH
  }

  /** The slots after the jobs before position i were stored: job 0 goes to slot 0, every
      other job to the slot its index names. */
  function Slots(jobs: seq<Entry>, prev: int, count: nat, i: nat): (r: seq<Entry>)
    requires 1 <= i <= count <= |jobs|
    requires forall k :: 1 <= k < i ==> 0 <= jobs[k].index - prev - 1 < count
    ensures |r| == count
  {
    if i == 1 then seq(count, _ => SENTINEL)[0 := jobs[0]]
    else Slots(jobs, prev, count, i - 1)[jobs[i - 1].index - prev - 1 := jobs[i - 1]]
  }

  predicate BatchSafe(s: Server) {
    && s.logs != []
    && s.jobs != []
    && forall k :: 1 <= k < BatchCount(s.jobs) ==>
         0 <= s.jobs[k].index - Last(s.logs).index - 1 < BatchCount(s.jobs)
  }

  function BatchEntries(s: Server): (r: seq<Entry>)
    requires BatchSafe(s)
    ensures |r| == BatchCount(s.jobs)
  {
    var count := BatchCount(s.jobs);
    Slots(s.jobs, Last(s.logs).index, count, count)
  }

  /** "Never replace": the first entry that fits the end of the log is appended with all that follow. */
  function Appended(logs: seq<Entry>, entries: seq<Entry>, i: nat): (r: seq<Entry>)
    requires i <= |entries|
    ensures logs <= r
    decreases |entries| - i
  {
    if i == |entries| then logs
    else if entries[i].index == |logs| then logs + entries[i..]
    else Appended(logs, entries, i + 1)
  }

  /** Push one argument to every peer's queue but the server's own. */
  function Pushed(rdy: seq<seq<AppendArgs>>, me: int, args: AppendArgs): (r: seq<seq<AppendArgs>>)
    ensures |r| == |rdy|
    ensures forall i :: 0 <= i < |rdy| ==> r[i] == if i == me then rdy[i] else rdy[i] + [args]
  {
    seq(|rdy|, i requires 0 <= i < |rdy| => if i == me then rdy[i] else rdy[i] + [args])
  }

  function OnBatch(s: Server, me: int): Server
    requires BatchSafe(s)
  {
    var entries := BatchEntries(s);
    var args := AppendArgs(s.currentTerm, me, Last(s.logs), entries, s.commitIdx);
    s.(rdy := if s.isLeader then Pushed(s.rdy, me, args) else s.rdy,
       jobs := s.jobs[BatchCount(s.jobs)..],
       logs := Appended(s.logs, entries, 0))
  }

  // ---------------------------------------------------------------- commit index updater

  function Tracked(tracker: map<int, int>, idx: int): int {
    if idx in tracker then tracker[idx] else 0
  }

  predicate CommitSafe(s: Server) {
    s.commitChnl != [] && s.commitIdx >= -1
  }

  function OnCommit(s: Server): Server
    requires CommitSafe(s)
  {
    var newIdx := s.commitChnl[0];
    var s1 := s.(commitChnl := s.commitChnl[1..]);
    if newIdx <= s.commitIdx || newIdx >= |s.logs| then s1
    else
      var count := Tracked(s.commitTracker, newIdx) + 1;
      var s2 := s1.(commitTracker := s.commitTracker[newIdx := count]);
      if count == |s.rdy| / 2 then
        s2.(commitIdx := newIdx, lastApplied := newIdx,
            applied := s.applied + Messages(s.logs[s.commitIdx + 1..newIdx + 1]))
      else s2
  }

  // ---------------------------------------------------------------- per-peer send and reply

  predicate SendSafe(s: Server, peer: int) {
    && 0 <= peer < |s.rdy| && |s.rdy| == |s.nextIndex|
    && s.rdy[peer] != []
    && (s.isLeader && s.rdy[peer][0].prevLog.index >= s.nextIndex[peer] ==>
          1 <= s.nextIndex[peer] && s.rdy[peer][0].prevLog.index < |s.logs|)
  }

  /** The argument as sent: extended backwards from the leader's log to the peer's nextIndex. */
  function Extended(logs: seq<Entry>, next: int, args: AppendArgs): AppendArgs
    requires args.prevLog.index >= next ==> 1 <= next && args.prevLog.index < |logs|
  {
    if args.prevLog.index >= next then
      args.(entries := logs[next..args.prevLog.index + 1] + args.entries, prevLog := logs[next - 1])
    else args
  }

  function OnSend(s: Server, peer: int): (Server, Option<AppendArgs>)
    requires SendSafe(s, peer)
  {
    var args := s.rdy[peer][0];
    var s1 := s.(rdy := s.rdy[peer := s.rdy[peer][1..]]);
    if !s.isLeader then (s1, None)
    else (s1, Some(Extended(s.logs, s.nextIndex[peer], args)))
  }

  predicate HasOlder(logs: seq<Entry>, r: nat, term: int)
    requires r < |logs|
  {
    exists k :: 0 <= k <= r && logs[k].term < term
  }

  /** The leader's scan back from position r to an entry older than `term`. */
  function BackOff(logs: seq<Entry>, r: nat, term: int): (k: nat)
    requires r < |logs| && HasOlder(logs, r, term)
    ensures k <= r && logs[k].term < term
    ensures forall j :: k < j <= r ==> logs[j].term >= term
  {
    if logs[r].term >= term then BackOff(logs, r - 1, term) else r
  }

  predicate ScansBack(s: Server, sent: AppendArgs, reply: AppendReply) {
    var r := reply.lastEntry.index;
    r > 1 && r <= sent.prevLog.index && r < |s.logs| && s.logs[r].term != reply.lastEntry.term
  }

  predicate AppendReplySafe(s: Server, peer: int, sent: AppendArgs, reply: AppendReply) {
    var r := reply.lastEntry.index;
    && 0 <= peer < |s.nextIndex| && |s.matchIndex| == |s.nextIndex|
    && (!reply.success && reply.term <= s.currentTerm && 1 < r <= sent.prevLog.index ==>
          r < |s.logs| && (ScansBack(s, sent, reply) ==> HasOlder(s.logs, r, sent.term)))
  }

  function OnAppendReply(s: Server, peer: int, sent: AppendArgs, reply: AppendReply): Server
    requires AppendReplySafe(s, peer, sent, reply)
  {
    var idx := reply.lastEntry.index;
    if reply.success then
      var s1 := s.(nextIndex := s.nextIndex[peer := idx + 1]);
      if idx > s.matchIndex[peer] then
        s1.(matchIndex := s.matchIndex[peer := idx], commitChnl := s.commitChnl + [idx])
      else s1
    else if reply.term > s.currentTerm then
      s.(currentTerm := reply.term, isLeader := false)
    else if ScansBack(s, sent, reply) then
      s.(nextIndex := s.nextIndex[peer := BackOff(s.logs, idx, sent.term) + 1])
    else
      s.(nextIndex := s.nextIndex[peer := idx + 1])
  }

  // ---------------------------------------------------------------- election

  function OnElection(s: Server, me: int): (Server, VoteArgs)
    requires s.logs != []
  {
    var term := s.currentTerm + 1;
    (s.(currentTerm := term, votedFor := me,
        tallies := s.tallies[term := Tally(Last(s.logs), s.commitIdx, {}, {}, [], 0, true)]),
     VoteArgs(term, me, Last(s.logs)))
  }

  /** The reply to the vote request of election `term` that was sent to `peer`. */
  function OnVoteReply(s: Server, peer: int, term: int, reply: VoteReply): Server
    requires term in s.tallies
  {
    var t := s.tallies[term];
    var t1 := t.(answered := t.answered + {peer},
                 yes := if reply.voted then t.yes + {peer} else t.yes,
                 ballots := t.ballots + [reply.voted]);
    var s1 := s.(tallies := s.tallies[term := t1]);
    if !reply.voted && reply.term > s.currentTerm then
      s1.(currentTerm := reply.term, isLeader := false)
    else s1
  }

  predicate CountSafe(s: Server, term: int) {
    && term in s.tallies && s.tallies[term].open && s.tallies[term].ballots != []
    && |s.rdy| == |s.nextIndex| == |s.matchIndex|
  }

  /** Counting the next ballot of election `term` makes the server leader. */
  predicate CountWins(s: Server, term: int)
    requires CountSafe(s, term)
  {
    s.tallies[term].ballots[0] && s.tallies[term].votes + 1 == |s.rdy| / 2
  }

  function OnCount(s: Server, me: int, term: int): Server
    requires CountSafe(s, term)
  {
    var t := s.tallies[term];
    var t1 := t.(ballots := t.ballots[1..]);
    if !t.ballots[0] then
      s.(tallies := s.tallies[term := t1.(open := false)])
    else if !CountWins(s, term) then
      s.(tallies := s.tallies[term := t1.(votes := t.votes + 1)])
    else
      s.(tallies := s.tallies[term := t1.(votes := t.votes + 1, open := false)],
         isLeader := true,
         rdy := Pushed(s.rdy, me, AppendArgs(term, me, t.lastLog, [], t.commitIdx)),
         nextIndex := seq(|s.nextIndex|, _ => |s.logs|),
         matchIndex := seq(|s.matchIndex|, _ => 0))
  }

  /** The election's own timer runs out. */
  function OnTallyTimeout(s: Server, term: int): Server
    requires term in s.tallies
  {
    s.(tallies := s.tallies[term := s.tallies[term].(open := false)])
  }
}
