/** From the replicated log to databases and clients: in a single-leader tenure every key/value
    server is a replay of a prefix of one log, an acknowledged write is a committed entry of it,
    and an answered read is what it says up to the read's own entry. */
module EndToEnd {
  import opened RaftTypes
  import opened RaftHandlers
  import opened Cluster
  import opened LogMatching
  import opened Tenure
  import FailOver
  import opened Commands
  import opened KvServer
  import opened KvReplay
  import opened Clerk
  import opened Clients
  import AckedWrites
  import AnsweredReads

  /** The key/value server fed by a Raft server's apply calls. */
  function Fed(applied: seq<ApplyMsg>): Kv {
    KvRun(EMPTY_KV, Deliveries(applied))
  }

  function Deliveries(applied: seq<ApplyMsg>): seq<KvEvent> {
    seq(|applied|, i requires 0 <= i < |applied| => Deliver(applied[i]))
  }

  /** The commands of the entries that are operations. */
  function Operations(entries: seq<Entry>): seq<string> {
    if entries == [] then []
    else (if entries[0].cmd.Op? then [entries[0].cmd.cmd] else []) + Operations(entries[1..])
  }

  /** Distinct indices make every delivered operation a first delivery. */
  lemma {:induction false} NumberedEntriesAreFirstDeliveries(entries: seq<Entry>, first: int, seen: set<int>)
    requires Contiguous(entries, first) && forall i :: i in seen ==> i < first
    ensures FirstDeliveries(Deliveries(Messages(entries)), seen) == Operations(entries)
    decreases |entries|
  {
    if entries == [] {
    } else {
      var events := Deliveries(Messages(entries));
      assert events[1..] == Deliveries(Messages(entries[1..]));
      assert events[0] == Deliver(ApplyMsg(entries[0].index, entries[0].cmd));
      assert entries[0].index == first;
      forall j | 0 <= j < |entries[1..]|
        ensures entries[1..][j].index == first + 1 + j
      {
        assert entries[1..][j] == entries[j + 1];
      }
      NumberedEntriesAreFirstDeliveries(entries[1..], first + 1, SeenAfter(events[0], seen));
    }
  }

  lemma FedByLogIsReplay(log: seq<Entry>, upTo: int)
    requires GoodLog(log) && 0 <= upTo < |log|
    ensures Fed(Messages(log[1..upTo + 1])).db == Replay(Operations(log[1..upTo + 1]))
  {
    NumberedEntriesAreFirstDeliveries(log[1..upTo + 1], 1, {});
    DatabaseIsReplay(Deliveries(Messages(log[1..upTo + 1])));
  }

  /** At every point of a clean run in which only server `l` has won, the database of the
      key/value server behind every Raft server is the replay of the operations in l's log up to
      that server's lastApplied. */
  lemma ReplicasReplayTheLeadersLog(
    n: nat, trace: seq<Config>, steps: seq<Step>, k: nat, term: int, l: int, i: int)
    requires CleanRun(n, trace, steps) && k < |trace| && 0 <= l < n && 0 <= i < n
    requires trace[k].wins <= {Win(term, l)}
    ensures |trace[k].servers| == n
    ensures 0 <= trace[k].servers[i].lastApplied < |trace[k].servers[l].logs|
    ensures Fed(trace[k].servers[i].applied).db ==
            Replay(Operations(trace[k].servers[l].logs[1..trace[k].servers[i].lastApplied + 1]))
  {
    SingleTenureIsSafe(n, trace, steps, k, term, l);
    StreamsAreGapless(n, trace, steps, k, l);
    FedByLogIsReplay(trace[k].servers[l].logs, trace[k].servers[i].lastApplied);
  }

  // ---------------------------------------------------------------- servers fed in order

  function Max(a: nat, b: nat): nat {
    if a < b then b else a
  }

  /** What is delivered comes from `applied`, in order: after the first p messages nothing but
      those again and the next. Handler calls may come between. */
  predicate FedInOrder(applied: seq<ApplyMsg>, p: nat, events: seq<KvEvent>)
    decreases |events|
  {
    events == [] ||
    (if events[0].Deliver? then
       var msg := events[0].msg;
       && 1 <= msg.index <= p + 1 && msg.index <= |applied| && msg == applied[msg.index - 1]
       && FedInOrder(applied, Max(p, msg.index), events[1..])
     else FedInOrder(applied, p, events[1..]))
  }

  /** The positions up to p that carry an operation. */
  function OpPositions(log: seq<Entry>, p: nat): seq<int>
    requires p < |log|
  {
    if p == 0 then [] else OpPositions(log, p - 1) + (if log[p].cmd.Op? then [p] else [])
  }

  /** The server has executed the operations of the log up to position p, in order. */
  ghost predicate FollowsLog(kv: Kv, log: seq<Entry>, p: nat) {
    && p < |log| && KvInv(kv) && kv.order == OpPositions(log, p)
    && forall i :: i in kv.log ==> 1 <= i <= p && log[i].cmd.Op? && kv.log[i] == log[i].cmd.cmd
  }

  lemma {:induction false} OpPositionsAreTheOperations(log: seq<Entry>, p: nat)
    requires p < |log|
    ensures forall i: nat :: 1 <= i <= p && log[i].cmd.Op? <==> i in OpPositions(log, p)
    decreases p
  {
    if p == 0 {
    } else {
      OpPositionsAreTheOperations(log, p - 1);
    }
  }

  lemma OtherEventFollows(kv: Kv, log: seq<Entry>, p: nat, e: KvEvent)
    requires FollowsLog(kv, log, p) && NewCommand(e, kv.log.Keys) == []
    ensures FollowsLog(KvAfter(kv, e), log, p)
  {
    EventKeepsInv(kv, e);
    OldEventKeepsLog(kv, e);
  }

  /** A delivery of what was delivered before, or of the next entry. */
  lemma DeliveryFollows(kv: Kv, log: seq<Entry>, p: nat, i: nat)
    requires GoodLog(log) && FollowsLog(kv, log, p) && 1 <= i <= p + 1 && i < |log|
    ensures FollowsLog(KvAfter(kv, Deliver(ApplyMsg(i, log[i].cmd))), log, Max(p, i))
  {
    var e := Deliver(ApplyMsg(i, log[i].cmd));
    OpPositionsAreTheOperations(log, p);
    if i <= p || !log[i].cmd.Op? {
      OtherEventFollows(kv, log, p, e);
    } else {
      EventKeepsInv(kv, e);
    }
  }

  /** A server fed in order from what was applied of a log follows the log. */
  lemma {:induction false} FedServerFollowsLog(
    kv: Kv, log: seq<Entry>, applied: seq<ApplyMsg>, p: nat, events: seq<KvEvent>) returns (q: nat)
    requires GoodLog(log) && |applied| < |log| && applied == Messages(log[1..|applied| + 1])
    requires FollowsLog(kv, log, p) && p <= |applied| && FedInOrder(applied, p, events)
    ensures q <= |applied| && FollowsLog(KvRun(kv, events), log, q)
    decreases |events|
  {
    if events == [] {
      q := p;
    } else if events[0].Deliver? {
      var i := events[0].msg.index;
      assert events[0].msg == ApplyMsg(i, log[i].cmd);
      DeliveryFollows(kv, log, p, i);
      q := FedServerFollowsLog(KvAfter(kv, events[0]), log, applied, Max(p, i), events[1..]);
    } else {
      OtherEventFollows(kv, log, p, events[0]);
      q := FedServerFollowsLog(KvAfter(kv, events[0]), log, applied, p, events[1..]);
    }
  }

  // ---------------------------------------------------------------- the tenure's servers

  /** At point k of a clean run at most server l has won an election, of term `term`. */
  ghost predicate SingleTenure(n: nat, trace: seq<Config>, steps: seq<Step>, k: nat, term: int, l: int) {
    CleanRun(n, trace, steps) && k < |trace| && 0 <= l < n && trace[k].wins <= {Win(term, l)}
  }

  /** A key/value server fed in order by Raft server j follows the leader's log, not past what j
      has applied. */
  lemma MemberFollowsLeadersLog(
    n: nat, trace: seq<Config>, steps: seq<Step>, k: nat, term: int, l: int, j: int, events: seq<KvEvent>)
    returns (q: nat)
    requires SingleTenure(n, trace, steps, k, term, l) && 0 <= j < n
    requires |trace[k].servers| == n && FedInOrder(trace[k].servers[j].applied, 0, events)
    ensures q <= trace[k].servers[j].commitIdx && GoodLog(trace[k].servers[l].logs)
    ensures FollowsLog(KvRun(EMPTY_KV, events), trace[k].servers[l].logs, q)
  {
    SingleTenureIsSafe(n, trace, steps, k, term, l);
    StreamsAreGapless(n, trace, steps, k, l);
    StreamsAreGapless(n, trace, steps, k, j);
    q := FedServerFollowsLog(EMPTY_KV, trace[k].servers[l].logs, trace[k].servers[j].applied, 0, events);
  }

  // ---------------------------------------------------------------- acknowledged writes

  /** Whatever is delivered was applied; messages may be lost, repeated or come in any order. */
  predicate FedFrom(applied: seq<ApplyMsg>, events: seq<KvEvent>) {
    forall i :: 0 <= i < |events| && events[i].Deliver? ==> events[i].msg in applied
  }

  /** Each command the server has logged was applied at its index. */
  predicate LoggedFrom(kv: Kv, applied: seq<ApplyMsg>) {
    forall idx :: idx in kv.log ==>
      exists m :: m in applied && m.index == idx && m.command.Op? && m.command.cmd == kv.log[idx]
  }

  lemma {:induction false} FedServerLogsApplied(kv: Kv, applied: seq<ApplyMsg>, events: seq<KvEvent>)
    requires LoggedFrom(kv, applied) && FedFrom(applied, events)
    ensures LoggedFrom(KvRun(kv, events), applied)
    decreases |events|
  {
    if events == [] {
    } else {
      EventLogsApplied(kv, applied, events[0]);
      FedServerLogsApplied(KvAfter(kv, events[0]), applied, events[1..]);
    }
  }

  lemma EventLogsApplied(kv: Kv, applied: seq<ApplyMsg>, e: KvEvent)
    requires LoggedFrom(kv, applied) && (e.Deliver? ==> e.msg in applied)
    ensures LoggedFrom(KvAfter(kv, e), applied)
  {
    if e.Deliver? && e.msg.command.Op? && e.msg.index !in kv.log {
      assert KvAfter(kv, e).log == kv.log[e.msg.index := e.msg.command.cmd];
    } else {
      OldEventKeepsLog(kv, e);
    }
  }

  /** Every key/value server of the client's run is fed by its Raft server. */
  ghost predicate ServersFed(c: Config, start: System, calls: seq<SystemStep>)
    requires CanRun(start, calls)
  {
    && |c.servers| == |start.kvs|
    && forall j :: 0 <= j < |start.kvs| ==> FedFrom(c.servers[j].applied, EventsAt(start, calls, j))
  }

  /** A client's Put or Append of the command, against n servers, has returned. */
  ghost predicate WriteReturned(
    n: nat, lastLeader: int, contextId: string, cmd: string, calls: seq<SystemStep>)
  {
    && CanRun(StartWrite(n, lastLeader, contextId, cmd), calls)
    && Returned(RunSystem(StartWrite(n, lastLeader, contextId, cmd), calls).client)
  }

  /** The index the client held at the end. */
  ghost function WrittenAt(n: nat, lastLeader: int, contextId: string, cmd: string, calls: seq<SystemStep>): int
    requires CanRun(StartWrite(n, lastLeader, contextId, cmd), calls)
  {
    var client := RunSystem(StartWrite(n, lastLeader, contextId, cmd), calls).client;
    if client.Writer? then client.put.idx else 0
  }

  /** The server's log has the command at the index. */
  predicate HoldsWrite(s: Server, idx: int, cmd: string) {
    0 <= idx < |s.logs| && s.logs[idx].cmd.Op? && s.logs[idx].cmd.cmd == cmd
  }

  /** What a key/value server fed by Raft server j has logged is committed in the leader's log. */
  lemma LoggedIsCommitted(
    n: nat, trace: seq<Config>, steps: seq<Step>, k: nat, term: int, l: int, j: int, kv: Kv, idx: int)
    requires SingleTenure(n, trace, steps, k, term, l) && 0 <= j < n && |trace[k].servers| == n
    requires LoggedFrom(kv, trace[k].servers[j].applied) && idx in kv.log
    ensures 1 <= idx <= trace[k].servers[l].commitIdx && HoldsWrite(trace[k].servers[l], idx, kv.log[idx])
    ensures |Holders(trace[k], l, idx)| > n / 2
  {
    var c := trace[k];
    SingleTenureIsSafe(n, trace, steps, k, term, l);
    StreamsAreGapless(n, trace, steps, k, l);
    StreamsAreGapless(n, trace, steps, k, j);
    LoggedIsInLog(kv, c.servers[l].logs, c.servers[j].lastApplied, idx);
    CommittedByLeader(n, trace, steps, k, term, l, j);
  }

  /** No server commits past the leader. */
  lemma CommittedByLeader(n: nat, trace: seq<Config>, steps: seq<Step>, k: nat, term: int, l: int, j: int)
    requires SingleTenure(n, trace, steps, k, term, l) && 0 <= j < n && |trace[k].servers| == n
    ensures trace[k].servers[j].commitIdx <= trace[k].servers[l].commitIdx
  {
    TenureHolds(n, trace, steps, k, term, l);
    assert AppliedOk(trace[k].servers[j], trace[k].servers[l].commitIdx);
  }

  lemma LoggedIsInLog(kv: Kv, log: seq<Entry>, upTo: int, idx: int)
    requires GoodLog(log) && 0 <= upTo < |log| && LoggedFrom(kv, Messages(log[1..upTo + 1])) && idx in kv.log
    ensures 1 <= idx <= upTo && log[idx].cmd.Op? && log[idx].cmd.cmd == kv.log[idx]
  {
    var applied := Messages(log[1..upTo + 1]);
    var m :| m in applied && m.index == idx && m.command.Op? && m.command.cmd == kv.log[idx];
    var i :| 0 <= i < |applied| && applied[i] == m;
    assert m == ApplyMsg(log[i + 1].index, log[i + 1].cmd);
  }

  /** In a single-leader tenure an acknowledged write is the entry of the leader's log at the
      client's index, is committed there, and is held by a majority; whatever apply calls were
      lost, repeated or reordered on the way to the key/value servers. */
  lemma AcknowledgedWriteIsCommitted(
    n: nat, trace: seq<Config>, steps: seq<Step>, k: nat, term: int, l: int,
    lastLeader: int, contextId: string, op: string, key: string, value: string, calls: seq<SystemStep>)
    requires SingleTenure(n, trace, steps, k, term, l) && (op == PUT || op == APPEND)
    requires WriteReturned(n, lastLeader, contextId, PutAppendCmd(op, key, value), calls)
    requires ServersFed(trace[k], StartWrite(n, lastLeader, contextId, PutAppendCmd(op, key, value)), calls)
    ensures var idx := WrittenAt(n, lastLeader, contextId, PutAppendCmd(op, key, value), calls);
      && 0 <= l < |trace[k].servers| && 1 <= idx <= trace[k].servers[l].commitIdx
      && HoldsWrite(trace[k].servers[l], idx, PutAppendCmd(op, key, value))
      && |Holders(trace[k], l, idx)| > n / 2
  {
    var cmd := PutAppendCmd(op, key, value);
    var start := StartWrite(n, lastLeader, contextId, cmd);
    var end := RunSystem(start, calls);
    AckedWrites.RunKeepsSystemInv(start, op, key, value, calls);
    var j :| 0 <= j < |end.kvs| && AckedWrites.AppliedAt(end.kvs[j], end.client.put.idx, cmd);
    RunHasServers(start, calls);
    ServerRunsItsEvents(start, calls, j);
    FedServerLogsApplied(EMPTY_KV, trace[k].servers[j].applied, EventsAt(start, calls, j));
    LoggedIsCommitted(n, trace, steps, k, term, l, j, end.kvs[j], end.client.put.idx);
  }

  lemma EarlierWinnerLacksWrites(n: nat, trace: seq<Config>, steps: seq<Step>, k: nat, term: int, l: int)
    requires SingleTenure(n, trace, steps, k, term, l) && k < |steps| && trace[k].wins == {Win(term, l)}
    requires Winning(trace[k], steps[k]) && steps[k].event.term <= term
    ensures |trace[k + 1].servers| == n && 0 <= steps[k].at < n
    ensures trace[k + 1].servers[steps[k].at].logs == [SENTINEL]
  {
    CleanStepsAreGood(n, trace, steps, k);
    TenureHolds(n, trace, steps, k, term, l);
    WinIsNew(trace[k], steps[k]);
    SoleWinnerPinsLogs(trace[k], term, l, l);
    FailOver.EarlierWinnerHoldsNothing(trace[k], steps[k], term, l);
    FailOver.WinKeepsLog(trace[k].servers[steps[k].at], steps[k].at, steps[k].event.term);
  }

  /** An acknowledged write is in the log of the next winner, at the same index, if and only if
      that winner's term is later. */
  lemma AcknowledgedWriteSurvivesFailOver(
    n: nat, trace: seq<Config>, steps: seq<Step>, k: nat, term: int, l: int,
    lastLeader: int, contextId: string, op: string, key: string, value: string, calls: seq<SystemStep>)
    requires SingleTenure(n, trace, steps, k, term, l) && (op == PUT || op == APPEND)
    requires trace[k].wins == {Win(term, l)} && k < |steps| && Winning(trace[k], steps[k])
    requires WriteReturned(n, lastLeader, contextId, PutAppendCmd(op, key, value), calls)
    requires ServersFed(trace[k], StartWrite(n, lastLeader, contextId, PutAppendCmd(op, key, value)), calls)
    ensures |trace[k + 1].servers| == n && 0 <= steps[k].at < n
    ensures HoldsWrite(trace[k + 1].servers[steps[k].at],
                       WrittenAt(n, lastLeader, contextId, PutAppendCmd(op, key, value), calls),
                       PutAppendCmd(op, key, value))
            <==> steps[k].event.term > term
  {
    AcknowledgedWriteIsCommitted(n, trace, steps, k, term, l, lastLeader, contextId, op, key, value, calls);
    if steps[k].event.term > term {
      FailOver.NextWinnerHoldsCommitted(n, trace, steps, k, term, l);
      var leader, idx := trace[k].servers[l], WrittenAt(n, lastLeader, contextId, PutAppendCmd(op, key, value), calls);
      assert leader.logs[..leader.commitIdx + 1][idx] == leader.logs[idx];
    } else {
      EarlierWinnerLacksWrites(n, trace, steps, k, term, l);
    }
  }

  // ---------------------------------------------------------------- answered reads

  /** What the log says to a read of key whose entry is at idx: the value the key has after the
      operations before it. */
  ghost function ReadAt(log: seq<Entry>, idx: int, key: string): Found
    requires 1 <= idx < |log|
  {
    var before := Replay(Operations(log[1..idx]));
    if log[idx].cmd.Op? && log[idx].cmd.cmd == GetCmd(key) && key in before
    then Found(Head(before[key], KEY_VALUE_SEPARATOR))
    else Missing
  }

  lemma {:induction false} OperationsOfAppended(entries: seq<Entry>, e: Entry)
    ensures Operations(entries + [e]) == Operations(entries) + (if e.cmd.Op? then [e.cmd.cmd] else [])
    decreases |entries|
  {
    if entries == [] {
      assert [e][1..] == [];
    } else {
      assert (entries + [e])[1..] == entries[1..] + [e];
      OperationsOfAppended(entries[1..], e);
    }
  }

  /** The map has the command of every operation up to p. */
  predicate HasOperations(commands: map<int, string>, log: seq<Entry>, p: nat)
    requires p < |log|
  {
    forall i :: 1 <= i <= p && log[i].cmd.Op? ==> i in commands && commands[i] == log[i].cmd.cmd
  }

  /** The commands at the operation positions are the operations of the log. */
  lemma {:induction false} CommandsAreOperations(log: seq<Entry>, commands: map<int, string>, p: nat)
    requires p < |log| && HasOperations(commands, log, p)
    ensures InLog(commands, OpPositions(log, p))
    ensures CommandsAt(commands, OpPositions(log, p)) == Operations(log[1..p + 1])
    decreases p
  {
    if p == 0 {
      assert log[1..1] == [];
    } else {
      CommandsAreOperations(log, commands, p - 1);
      assert log[1..p + 1] == log[1..p] + [log[p]];
      OperationsOfAppended(log[1..p], log[p]);
    }
  }

  /** The operations before the one at position idx are those at positions up to idx - 1. */
  lemma {:induction false} PositionsBefore(log: seq<Entry>, p: nat, k: nat)
    requires p < |log| && k < |OpPositions(log, p)|
    ensures 1 <= OpPositions(log, p)[k] <= p
    ensures OpPositions(log, p)[..k] == OpPositions(log, OpPositions(log, p)[k] - 1)
    decreases p
  {
    if k < |OpPositions(log, p - 1)| {
      PositionsBefore(log, p - 1, k);
      assert OpPositions(log, p)[..k] == OpPositions(log, p - 1)[..k];
    } else {
      assert OpPositions(log, p)[..k] == OpPositions(log, p - 1);
    }
  }

  lemma OperationsBefore(kv: Kv, log: seq<Entry>, p: nat, k: nat)
    requires FollowsLog(kv, log, p) && k < |kv.order|
    ensures 1 <= kv.order[k] <= p && kv.order[k] in kv.log
    ensures kv.order[..k] == OpPositions(log, kv.order[k] - 1) && HasOperations(kv.log, log, kv.order[k] - 1)
  {
    PositionsBefore(log, p, k);
    OpPositionsAreTheOperations(log, p);
  }

  /** What a server that follows the log says to a read is what the log says. */
  lemma LookedIsReadAt(kv: Kv, log: seq<Entry>, p: nat, k: nat, key: string)
    requires FollowsLog(kv, log, p) && k < |kv.order|
    ensures 1 <= kv.order[k] <= p && Looked(kv, k, key) == ReadAt(log, kv.order[k], key)
  {
    var idx := kv.order[k];
    OperationsBefore(kv, log, p, k);
    CommandsAreOperations(log, kv.log, idx - 1);
    assert CommandsAt(kv.log, kv.order[..k]) == Operations(log[1..idx]);
  }

  /** Every key/value server of the client's run is fed by its Raft server, in order. */
  ghost predicate ServersFedInOrder(c: Config, start: System, calls: seq<SystemStep>)
    requires CanRun(start, calls)
  {
    && |c.servers| == |start.kvs|
    && forall j :: 0 <= j < |start.kvs| ==> FedInOrder(c.servers[j].applied, 0, EventsAt(start, calls, j))
  }

  /** In a single-leader tenure an answered read, whichever server answered it, is what the
      leader's committed log says at the index it waited for. */
  lemma AnsweredReadIsTheLogs(
    n: nat, trace: seq<Config>, steps: seq<Step>, k: nat, term: int, l: int,
    lastLeader: int, contextId: string, key: string, calls: seq<SystemStep>)
    requires SingleTenure(n, trace, steps, k, term, l) && ReadableKey(key)
    requires AnsweredReads.ReadReturned(n, lastLeader, contextId, key, calls)
    requires ServersFedInOrder(trace[k], StartRead(n, lastLeader, contextId, key), calls)
    ensures var client := RunSystem(StartRead(n, lastLeader, contextId, key), calls).client;
      && |trace[k].servers| == n && client.Reader? && client.waiting.Some? && client.get.found.Some?
      && var leader := trace[k].servers[l];
      && 1 <= client.waiting.value <= leader.commitIdx < |leader.logs|
      && client.get.found.value == ReadAt(leader.logs, client.waiting.value, key)
  {
    var start := StartRead(n, lastLeader, contextId, key);
    var end := RunSystem(start, calls);
    AnsweredReads.RunKeepsSystemInv(start, key, calls);
    var idx, found := end.client.waiting.value, end.client.get.found.value;
    var j, m :| 0 <= j < |end.kvs| && AnsweredReads.Seen(end.kvs[j], m, idx, key, found);
    RunHasServers(start, calls);
    ServerRunsItsEvents(start, calls, j);
    var q := MemberFollowsLeadersLog(n, trace, steps, k, term, l, j, EventsAt(start, calls, j));
    LookedIsReadAt(end.kvs[j], trace[k].servers[l].logs, q, m, key);
    TenureHolds(n, trace, steps, k, term, l);
    assert AppliedOk(trace[k].servers[j], trace[k].servers[l].commitIdx);
    assert AppliedOk(trace[k].servers[l], trace[k].servers[l].commitIdx);
  }

  // ---------------------------------------------------------------- lost apply calls

  /** A write and a read of its key. */
  function WriteAndRead(key: string, value: string): seq<Entry> {
    [SENTINEL, Entry(1, 1, Op("writer", PutAppendCmd(PUT, key, value))), Entry(2, 1, Op("reader", GetCmd(key)))]
  }

  /** Reads do need every apply call: when the one with the write is lost, a server answers the
      read ErrNoKey, though the log says what was written. */
  lemma LostApplyCallLosesWrite(key: string, value: string)
    requires !Contains(key, OP_SEPARATOR) && !Contains(key, KEY_VALUE_SEPARATOR)
    requires !Contains(value, OP_SEPARATOR) && !Contains(value, KEY_VALUE_SEPARATOR)
    ensures var log := WriteAndRead(key, value);
      var kv := KvRun(EMPTY_KV, [Deliver(ApplyMsg(2, log[2].cmd))]);
      && GoodLog(log) && FedFrom(Messages(log[1..]), [Deliver(ApplyMsg(2, log[2].cmd))])
      && KvInv(kv) && kv.order == [2] && CellAt(kv.ops, 2).Some?
      && FinishGet(kv, 2, GetCmd(key)) == GetReply(false, ErrNoKey, "") && ReadAt(log, 2, key) == Found(value)
  {
    var log := WriteAndRead(key, value);
    assert Messages(log[1..])[1] == ApplyMsg(2, log[2].cmd);
    LogSaysWritten(key, value);
    LoneReadFindsNothing(key);
  }

  lemma LogSaysWritten(key: string, value: string)
    requires !Contains(key, OP_SEPARATOR) && !Contains(key, KEY_VALUE_SEPARATOR)
    requires !Contains(value, OP_SEPARATOR) && !Contains(value, KEY_VALUE_SEPARATOR)
    ensures ReadAt(WriteAndRead(key, value), 2, key) == Found(value)
  {
    var log := WriteAndRead(key, value);
    assert log[1..2] == [log[1]];
    OneOperation(log[1]);
    ExecutedWrite(map[], key, value);
  }

  lemma LoneReadFindsNothing(key: string)
    requires !Contains(key, OP_SEPARATOR)
    ensures var kv := KvRun(EMPTY_KV, [Deliver(ApplyMsg(2, Op("reader", GetCmd(key))))]);
      && KvInv(kv) && kv.order == [2] && CellAt(kv.ops, 2).Some?
      && FinishGet(kv, 2, GetCmd(key)) == GetReply(false, ErrNoKey, "")
  {
    var events := [Deliver(ApplyMsg(2, Op("reader", GetCmd(key))))];
    RunKeepsInv(EMPTY_KV, events);
    var kv := KvAfter(EMPTY_KV, events[0]);
    assert KvRun(EMPTY_KV, events) == kv && kv.order == [] + [2];
    GetCmdRoundTrip(key);
    assert kv.order[..0] == [] && CommandsAt(kv.log, []) == [];
    ReadsAreExact(kv, 0, key);
  }

  lemma OneOperation(e: Entry)
    requires e.cmd.Op?
    ensures Replay(Operations([e])) == Execute(map[], e.cmd.cmd)
  {
    assert [e][1..] == [] && [e.cmd.cmd] + [] == [e.cmd.cmd] && [e.cmd.cmd][..0] == [];
  }
}
