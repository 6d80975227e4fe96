/** The Raft object with its handlers and goroutine bodies as methods over its fields. Each
    method computes exactly the step function of RaftHandlers on the object's state. */
module RaftServer {
  import opened RaftTypes
  import opened RaftHandlers

  /** What persist() writes. */
  datatype Persistent = Persistent(term: int, votedFor: int, logs: seq<Entry>)

  /** The serialisation of the persistent fields, left abstract. */
  datatype Codec = Codec(encode: Persistent -> seq<bv8>, decode: seq<bv8> -> Persistent)

  ghost predicate RoundTrips(codec: Codec) {
    forall p: Persistent :: codec.decode(codec.encode(p)) == p
  }

  function Saved(codec: Codec, s: Server): seq<bv8> {
    codec.encode(Persistent(s.currentTerm, s.votedFor, s.logs))
  }

  /** The server Make builds in a cluster of n from what the persister holds, if anything. */
  function Restored(codec: Codec, n: nat, disk: Option<seq<bv8>>): Server {
    match disk
    case None => Fresh(n)
    case Some(data) =>
      var p := codec.decode(data);
      Fresh(n).(currentTerm := p.term, votedFor := p.votedFor, logs := p.logs, logidx := |p.logs| - 1)
  }

  class Raft {
    const me: int
    const codec: Codec
    var disk: Option<seq<bv8>>

    var currentTerm: int
    var votedFor: int
    var logs: seq<Entry>
    var logidx: int
    var isLeader: bool
    var commitIdx: int
    var lastApplied: int
    var nextIndex: seq<int>
    var matchIndex: seq<int>
    var jobs: seq<Entry>
    var rdy: seq<seq<AppendArgs>>
    var commitChnl: seq<int>
    var commitTracker: map<int, int>
    var tallies: map<int, Tally>
    var applied: seq<ApplyMsg>

    function State(): Server
      reads this
    {
      Server(currentTerm, votedFor, logs, logidx, isLeader, commitIdx, lastApplied, nextIndex, matchIndex,
             jobs, rdy, commitChnl, commitTracker, tallies, applied)
    }

    constructor Make(me: int, n: nat, codec: Codec, disk: Option<seq<bv8>>)
      ensures State() == Restored(codec, n, disk)
      ensures this.me == me && this.codec == codec && this.disk == disk
    {
      this.me, this.codec, this.disk := me, codec, disk;
      currentTerm, votedFor, logs, logidx := 0, -1, [SENTINEL], 0;
      isLeader, commitIdx, lastApplied := false, 0, 0;
      nextIndex, matchIndex := seq(n, _ => 0), seq(n, _ => 0);
      jobs, rdy, commitChnl := [], seq(n, _ => []), [];
      commitTracker, tallies, applied := map[], map[], [];
      new;
      if disk.Some? {
        ReadPersist(disk.value);
      }
    }

    method Persist()
      modifies this`disk
      ensures disk == Some(Saved(codec, State()))
    {
      disk := Some(codec.encode(Persistent(currentTerm, votedFor, logs)));
    }

    method ReadPersist(data: seq<bv8>)
      modifies this`currentTerm, this`votedFor, this`logs, this`logidx
      ensures Persistent(currentTerm, votedFor, logs) == codec.decode(data)
      ensures logidx == |logs| - 1
    {
      var p := codec.decode(data);
      currentTerm, votedFor, logs := p.term, p.votedFor, p.logs;
      logidx := |logs| - 1;
    }

    method RequestVote(args: VoteArgs) returns (reply: VoteReply)
      requires logs != []
      modifies this
      ensures (State(), reply) == OnRequestVote(old(State()), args)
      ensures disk == Some(Saved(codec, State()))
    {
      var current := currentTerm;
      reply := VoteReply(current, false);
      if args.term >= current {
        currentTerm := args.term;
        reply := reply.(term := args.term);
        if args.term > current || (current == args.term && votedFor == -1) {
          var mine := logs[|logs| - 1];
          if mine.term < args.log.term || (mine.term == args.log.term && mine.index <= args.log.index) {
            reply := reply.(voted := true);
            votedFor := args.id;
            isLeader := false;
          }
        }
      }
      Persist();
    }

    method ApplyAll(toApply: seq<Entry>)
      modifies this`applied
      ensures applied == old(applied) + Messages(toApply)
    {
      for k := 0 to |toApply|
        invariant applied == old(applied) + Messages(toApply)[..k]
      {
        applied := applied + [ApplyMsg(toApply[k].index, toApply[k].cmd)];
      }
    }

    /** Drop the run of the conflicting term that ends at position prev. */
    method RollBack(prev: nat)
      requires prev < |logs|
      modifies this`logs, this`logidx
      ensures logs == old(logs)[..RunStart(old(logs), prev, old(logs)[prev].term) + 1]
      ensures logidx == Last(logs).index
    {
      var conflicting := logs[prev].term;
      var curr := prev;
      while logs[curr].term == conflicting && curr != 0
        invariant 0 <= curr <= prev
        invariant RunStart(logs, curr, conflicting) == RunStart(logs, prev, conflicting)
      {
        curr := curr - 1;
      }
      curr := curr + 1;
      logs := logs[..curr];
      logidx := logs[curr - 1].index;
    }

    /** Merge the message's entries into the log; false is the early return on a gap. */
    method MergeEntries(entries: seq<Entry>) returns (ok: bool)
      requires logs != [] && forall e :: e in entries ==> e.index >= 0
      modifies this`logs
      ensures Merge(old(logs), entries, 0, Last(old(logs)).index) == if ok then Some(logs) else None
      ensures !ok ==> logs == old(logs)
    {
      ghost var last := Last(logs).index;
      var lengthLogs := |logs|;
      var lastIdx := logs[|logs| - 1].index;
      var i := 0;
      while i < |entries|
        invariant 0 <= i <= |entries|
        invariant logs == old(logs)
        invariant Merge(old(logs), entries, 0, last) == Merge(old(logs), entries, i, last)
      {
        var v := entries[i];
        if v.index == lengthLogs {
          logs := logs + entries[i..];
          return true;
        } else if v.index < lengthLogs && logs[v.index].term != v.term {
          logs := logs[..v.index] + entries[i..];
          return true;
        } else if v.index > lastIdx {
          return false;
        }
        i := i + 1;
      }
      return true;
    }

    method AdvanceCommit(leaderCommitIdx: int)
      requires logs != [] && FollowerApplySafe(logs, commitIdx, lastApplied, leaderCommitIdx)
      modifies this`commitIdx, this`lastApplied, this`applied
      ensures State() == FollowerApply(old(State()), leaderCommitIdx)
    {
      if leaderCommitIdx > commitIdx {
        var newCommitIdx := Min(logs[|logs| - 1].index, leaderCommitIdx);
        var oldLastApplied := lastApplied;
        if newCommitIdx > oldLastApplied {
          lastApplied := newCommitIdx;
          commitIdx := newCommitIdx;
          ApplyAll(logs[oldLastApplied + 1..newCommitIdx + 1]);
        }
      }
    }

    /** The handler after the term check: roll back, merge and apply. */
    method Accept(args: AppendArgs, early: AppendReply) returns (reply: AppendReply)
      requires HeartBeatSafe(State(), args) && args.term == currentTerm
      requires early == AppendReply(early.term, false, Last(logs))
      modifies this`logs, this`logidx, this`commitIdx, this`lastApplied, this`applied
      ensures !isLeader ==> (State(), reply.(term := currentTerm)) == OnHeartBeat(old(State()), args)
      ensures reply.term == early.term
    {
      reply := early;
      if args.prevLog.index < |logs| && logs[args.prevLog.index].term != args.prevLog.term {
        RollBack(args.prevLog.index);
        reply := reply.(lastEntry := logs[|logs| - 1]);
      } else if args.prevLog.index <= reply.lastEntry.index {
        var merged := MergeEntries(args.entries);
        if merged {
          reply := reply.(lastEntry := logs[|logs| - 1]);
          logidx := reply.lastEntry.index;
          AdvanceCommit(args.leaderCommitIdx);
          reply := reply.(success := reply.lastEntry.index >= args.prevLog.index);
        }
      }
    }

    method HeartBeat(args: AppendArgs) returns (reply: AppendReply)
      requires HeartBeatSafe(State(), args)
      modifies this
      ensures (State(), reply) == OnHeartBeat(old(State()), args)
      ensures disk == Some(Saved(codec, State()))
    {
      reply := AppendReply(currentTerm, false, logs[|logs| - 1]);
      if args.term >= currentTerm {
        currentTerm := args.term;
        isLeader := false;
        reply := Accept(args, reply);
      }
      Persist();
    }

    method Start(command: Command) returns (reply: StartReply)
      modifies this`logidx, this`jobs
      ensures (State(), reply) == OnStart(old(State()), command)
    {
      if !isLeader {
        return StartReply(0, 0, false);
      }
      logidx := logidx + 1;
      jobs := jobs + [Entry(logidx, currentTerm, command)];
      return StartReply(logidx, currentTerm, true);
    }

    /** Put an argument on every peer's queue; a tick skips the queues that are not empty. */
    method PushToPeers(args: AppendArgs, onlyIdle: bool)
      modifies this`rdy
      ensures |rdy| == |old(rdy)|
      ensures forall i :: 0 <= i < |rdy| ==>
        rdy[i] == if i == me || (onlyIdle && old(rdy)[i] != []) then old(rdy)[i] else old(rdy)[i] + [args]
    {
      for i := 0 to |rdy|
        invariant |rdy| == |old(rdy)|
        invariant forall k :: i <= k < |rdy| ==> rdy[k] == old(rdy)[k]
        invariant forall k :: 0 <= k < i ==>
          rdy[k] == if k == me || (onlyIdle && old(rdy)[k] != []) then old(rdy)[k] else old(rdy)[k] + [args]
      {
        if i == me || (onlyIdle && rdy[i] != []) {
          continue;
        }
        rdy := rdy[i := rdy[i] + [args]];
      }
    }

    method Tick()
      requires logs != []
      modifies this`rdy
      ensures State() == OnTick(old(State()), me)
    {
      PushToPeers(AppendArgs(currentTerm, me, logs[|logs| - 1], [], commitIdx), true);
      assert forall i :: 0 <= i < |rdy| ==> rdy[i] == OnTick(old(State()), me).rdy[i];
    }

    /** Take `count` jobs off the channel into the slots their indices name. */
    method CollectBatch() returns (entries: seq<Entry>)
      requires BatchSafe(State())
      modifies this`jobs
      ensures entries == BatchEntries(old(State()))
      ensures jobs == old(jobs)[|entries|..]
    {
      var prevLog := logs[|logs| - 1];
      var count := if |jobs| < MAX_ENTRIES_PER_BATCH then |jobs| else MAX_ENTRIES_PER_BATCH;
      var slots := new Entry[count](_ => SENTINEL);
      slots[0] := jobs[0];
      jobs := jobs[1..];
      var i := 1;
      assert slots[..] == Slots(old(jobs), prevLog.index, count, 1);
      while i < count
        invariant 1 <= i <= count
        invariant jobs == old(jobs)[i..]
        invariant slots[..] == Slots(old(jobs), prevLog.index, count, i)
      {
        var j := jobs[0];
        jobs := jobs[1..];
        assert j == old(jobs)[i];
        ghost var before := slots[..];
        slots[j.index - prevLog.index - 1] := j;
        assert slots[..] == before[j.index - prevLog.index - 1 := j];
        i := i + 1;
      }
      entries := slots[..];
    }

    /** "Never replace. Append only." */
    method AppendEntries(entries: seq<Entry>)
      modifies this`logs
      ensures logs == Appended(old(logs), entries, 0)
    {
      var i := 0;
      while i < |entries|
        invariant 0 <= i <= |entries|
        invariant logs == old(logs)
        invariant Appended(old(logs), entries, 0) == Appended(old(logs), entries, i)
      {
        if entries[i].index == |logs| {
          logs := logs + entries[i..];
          return;
        }
        i := i + 1;
      }
    }

    method Batch()
      requires BatchSafe(State())
      modifies this
      ensures State() == OnBatch(old(State()), me)
      ensures disk == Some(Saved(codec, State()))
    {
      var prevLog := logs[|logs| - 1];
      var entries := CollectBatch();
      if isLeader {
        var args := AppendArgs(currentTerm, me, prevLog, entries, commitIdx);
        PushToPeers(args, false);
        assert rdy == Pushed(old(rdy), me, args);
      }
      AppendEntries(entries);
      Persist();
    }

    /** Count one more follower at newIdx. */
    method Track(newIdx: int) returns (count: int)
      modifies this`commitTracker
      ensures count == Tracked(old(commitTracker), newIdx) + 1
      ensures commitTracker == old(commitTracker)[newIdx := count]
    {
      if newIdx !in commitTracker {
        commitTracker := commitTracker[newIdx := 0];
      }
      count := commitTracker[newIdx] + 1;
      commitTracker := commitTracker[newIdx := count];
    }

    /** Apply the entries up to newIdx and advance the leader's commit index. */
    method CommitUpTo(newIdx: int)
      requires -1 <= commitIdx < newIdx < |logs|
      modifies this`commitIdx, this`lastApplied, this`applied, this`disk
      ensures commitIdx == lastApplied == newIdx
      ensures applied == old(applied) + Messages(logs[old(commitIdx) + 1..newIdx + 1])
      ensures disk == Some(Saved(codec, State()))
    {
      ApplyAll(logs[commitIdx + 1..newIdx + 1]);
      commitIdx := newIdx;
      lastApplied := newIdx;
      Persist();
    }

    method UpdateCommit()
      requires CommitSafe(State())
      modifies this`commitChnl, this`commitTracker, this`commitIdx, this`lastApplied, this`applied, this`disk
      ensures State() == OnCommit(old(State()))
      ensures disk == if commitIdx != old(commitIdx) then Some(Saved(codec, State())) else old(disk)
    {
      var newIdx := commitChnl[0];
      commitChnl := commitChnl[1..];
      if newIdx <= commitIdx || newIdx >= |logs| {
        return;
      }
      var count := Track(newIdx);
      if count == |rdy| / 2 {
        CommitUpTo(newIdx);
      }
    }

    method Send(peer: int) returns (sent: Option<AppendArgs>)
      requires SendSafe(State(), peer)
      modifies this`rdy
      ensures (State(), sent) == OnSend(old(State()), peer)
    {
      var args := rdy[peer][0];
      rdy := rdy[peer := rdy[peer][1..]];
      if !isLeader {
        return None;
      }
      var nextIdx := nextIndex[peer];
      if args.prevLog.index >= nextIdx {
        args := args.(entries := logs[nextIdx..args.prevLog.index + 1] + args.entries, prevLog := logs[nextIdx - 1]);
      }
      return Some(args);
    }

    method ReceiveAppendReply(peer: int, sent: AppendArgs, reply: AppendReply)
      requires AppendReplySafe(State(), peer, sent, reply)
      modifies this`nextIndex, this`matchIndex, this`commitChnl, this`currentTerm, this`isLeader
      ensures State() == OnAppendReply(old(State()), peer, sent, reply)
    {
      if reply.success {
        var lastEntryIdx := reply.lastEntry.index;
        var serverLastMatch := matchIndex[peer];
        nextIndex := nextIndex[peer := lastEntryIdx + 1];
        if lastEntryIdx > serverLastMatch {
          matchIndex := matchIndex[peer := lastEntryIdx];
          commitChnl := commitChnl + [lastEntryIdx];
        }
      } else if reply.term > currentTerm {
        currentTerm := reply.term;
        isLeader := false;
      } else {
        var replyIdx := reply.lastEntry.index;
        if replyIdx > 1 && replyIdx <= sent.prevLog.index && logs[replyIdx].term != reply.lastEntry.term {
          while logs[replyIdx].term >= sent.term
            invariant 0 <= replyIdx <= reply.lastEntry.index
            invariant HasOlder(logs, replyIdx, sent.term)
            invariant BackOff(logs, replyIdx, sent.term) == BackOff(logs, reply.lastEntry.index, sent.term)
            decreases replyIdx
          {
            replyIdx := replyIdx - 1;
          }
          nextIndex := nextIndex[peer := replyIdx + 1];
        } else {
          nextIndex := nextIndex[peer := replyIdx + 1];
        }
      }
    }

    method StartElection() returns (args: VoteArgs)
      requires logs != []
      modifies this`currentTerm, this`votedFor, this`tallies
      ensures (State(), args) == OnElection(old(State()), me)
    {
      currentTerm := currentTerm + 1;
      votedFor := me;
      var lastLog := logs[|logs| - 1];
      tallies := tallies[currentTerm := Tally(lastLog, commitIdx, {}, {}, [], 0, true)];
      return VoteArgs(currentTerm, me, lastLog);
    }

    method ReceiveVoteReply(peer: int, term: int, reply: VoteReply)
      requires term in tallies
      modifies this`tallies, this`currentTerm, this`isLeader
      ensures State() == OnVoteReply(old(State()), peer, term, reply)
    {
      var t := tallies[term];
      if reply.voted {
        t := t.(yes := t.yes + {peer});
      } else if reply.term > currentTerm {
        currentTerm := reply.term;
        isLeader := false;
      }
      tallies := tallies[term := t.(answered := t.answered + {peer}, ballots := t.ballots + [reply.voted])];
    }

    /** Queue the first heartbeat for every peer and reset the peers' indices. */
    method BecomeLeader(args: AppendArgs)
      requires |nextIndex| == |matchIndex|
      modifies this`isLeader, this`rdy, this`nextIndex, this`matchIndex
      ensures isLeader && rdy == Pushed(old(rdy), me, args)
      ensures nextIndex == seq(|old(nextIndex)|, _ => |old(logs)|)
      ensures matchIndex == seq(|old(matchIndex)|, _ => 0)
    {
      isLeader := true;
      PushToPeers(args, false);
      for i := 0 to |nextIndex|
        invariant |nextIndex| == |old(nextIndex)| && |matchIndex| == |old(matchIndex)|
        invariant isLeader && rdy == Pushed(old(rdy), me, args)
        invariant forall k :: 0 <= k < i ==> nextIndex[k] == |logs| && matchIndex[k] == 0
      {
        nextIndex := nextIndex[i := |logs|];
        matchIndex := matchIndex[i := 0];
      }
    }

    method CountVote(term: int)
      requires CountSafe(State(), term)
      modifies this`tallies, this`isLeader, this`rdy, this`nextIndex, this`matchIndex
      ensures State() == OnCount(old(State()), me, term)
    {
      var t := tallies[term];
      var isVoted := t.ballots[0];
      t := t.(ballots := t.ballots[1..]);
      if !isVoted {
        tallies := tallies[term := t.(open := false)];
        return;
      }
      t := t.(votes := t.votes + 1);
      if t.votes == |rdy| / 2 {
        BecomeLeader(AppendArgs(term, me, t.lastLog, [], t.commitIdx));
        t := t.(open := false);
      }
      tallies := tallies[term := t];
    }
  }
}
