/** A client's PutAppend: for any sequence of lost calls and replies, wrong-leader answers, index
    resets and server switches, an acknowledged write was applied. */
module AckedWrites {
  import opened RaftTypes
  import opened Commands
  import opened KvServer
  import opened KvReplay
  import opened Clients

  /** The command is the one delivered at idx. */
  predicate AppliedAt(kv: Kv, idx: int, cmd: string) {
    idx in kv.log && kv.log[idx] == cmd
  }

  ghost predicate SystemInv(sys: System, cmd: string) {
    && (forall j :: 0 <= j < |sys.kvs| ==> KvInv(sys.kvs[j]))
    && sys.client.Writer? && sys.client.cmd == cmd && sys.client.put.idx >= 0
    && (sys.client.put.done ==> exists j :: 0 <= j < |sys.kvs| && AppliedAt(sys.kvs[j], sys.client.put.idx, cmd))
  }

  /** The client returns only on a reply that found its own command in the cell. */
  lemma ReturnMeansApplied(sys: System, op: string, key: string, value: string)
    requires (op == PUT || op == APPEND) && SystemInv(sys, PutAppendCmd(op, key, value))
    requires CanStep(sys, CallFinishes)
    ensures var next := StepSystem(sys, CallFinishes).client;
      next.put.done ==> AppliedAt(sys.kvs[Called(sys.client)], next.put.idx, PutAppendCmd(op, key, value))
  {
    var client, kv := sys.client, sys.kvs[Called(sys.client)];
    if FinishPutAppend(kv, PutAppendArgs(client.contextId, client.cmd, client.put.idx)).err == OK {
      FullCellNamesAppliedWrite(kv, client.put.idx, op, key, value);
    }
  }

  lemma ArrivingCallDoesNotReturn(client: Client, n: nat, kv: Kv, raft: RaftAnswers)
    requires client.Writer? && !client.put.done && client.put.idx >= 0
    ensures AfterArrival(client, n, kv, raft).Writer? && AfterArrival(client, n, kv, raft).cmd == client.cmd
    ensures !AfterArrival(client, n, kv, raft).put.done && AfterArrival(client, n, kv, raft).put.idx >= 0
  {
  }

  /** Whatever a server does, it keeps its invariant and what it has applied. */
  lemma ServerEventKeepsInv(sys: System, cmd: string, j: int, e: KvEvent, client: Client)
    requires SystemInv(sys, cmd) && 0 <= j < |sys.kvs|
    requires client.Writer? && client.cmd == cmd && client.put.idx >= 0 && (client.put.done ==> client == sys.client)
    ensures SystemInv(System(sys.kvs[j := KvAfter(sys.kvs[j], e)], client), cmd)
  {
    EventKeepsInv(sys.kvs[j], e);
    var kvs := sys.kvs[j := KvAfter(sys.kvs[j], e)];
    if client.put.done {
      var i :| 0 <= i < |sys.kvs| && AppliedAt(sys.kvs[i], client.put.idx, cmd);
      assert AppliedAt(kvs[i], client.put.idx, cmd);
    }
  }

  lemma StepKeepsSystemInv(sys: System, op: string, key: string, value: string, step: SystemStep)
    requires op == PUT || op == APPEND
    requires SystemInv(sys, PutAppendCmd(op, key, value)) && CanStep(sys, step)
    ensures SystemInv(StepSystem(sys, step), PutAppendCmd(op, key, value))
  {
    var cmd, j := PutAppendCmd(op, key, value), Called(sys.client);
    match step
    case AtServer(i, e) => ServerEventKeepsInv(sys, cmd, i, e, sys.client);
    case CallFails =>
    case CallArrives(raft) =>
      ArrivingCallDoesNotReturn(sys.client, |sys.kvs|, sys.kvs[j], raft);
      ServerEventKeepsInv(sys, cmd, j, HandlerCall(sys.client, raft), StepSystem(sys, step).client);
    case CallFinishes => ReturnMeansApplied(sys, op, key, value);
  }

  lemma {:induction false} RunKeepsSystemInv(
    sys: System, op: string, key: string, value: string, steps: seq<SystemStep>)
    requires op == PUT || op == APPEND
    requires SystemInv(sys, PutAppendCmd(op, key, value)) && CanRun(sys, steps)
    ensures SystemInv(RunSystem(sys, steps), PutAppendCmd(op, key, value))
    decreases |steps|
  {
    if steps == [] {
    } else {
      StepKeepsSystemInv(sys, op, key, value, steps[0]);
      RunKeepsSystemInv(StepSystem(sys, steps[0]), op, key, value, steps[1..]);
    }
  }

  // ---------------------------------------------------------------- writes that are acknowledged

  /** When its cell is full, the client's call returns if and only if the server it calls has
      applied its command at the index it holds; otherwise the client starts over. */
  lemma ReturnsExactlyOnOwnCommand(sys: System, op: string, key: string, value: string)
    requires (op == PUT || op == APPEND) && SystemInv(sys, PutAppendCmd(op, key, value))
    requires CanStep(sys, CallFinishes)
    ensures var client, next := sys.client, StepSystem(sys, CallFinishes).client;
      && (next.put.done <==> AppliedAt(sys.kvs[Called(client)], client.put.idx, PutAppendCmd(op, key, value)))
      && next.put.idx == (if next.put.done then client.put.idx else 0)
  {
    WritesAreExact(sys.kvs[Called(sys.client)], sys.client.contextId, sys.client.put.idx, op, key, value);
  }

  const ASKED := RaftAnswers(true, true, None)

  /** The server has applied the client's command at idx and knows its context by that index. */
  predicate Recorded(kv: Kv, contextId: string, cmd: string, idx: int) {
    idx >= 1 && AppliedAt(kv, idx, cmd) && contextId in kv.context && kv.context[contextId] == idx
  }

  /** What the first phase of a call to a server that has recorded the write leaves. */
  lemma FirstPhaseLearns(sys: System, cmd: string, idx: int)
    requires SystemInv(sys, cmd) && !sys.client.put.done && sys.client.put.idx == 0
    requires 0 <= Called(sys.client) < |sys.kvs|
    requires Recorded(sys.kvs[Called(sys.client)], sys.client.contextId, cmd, idx)
    ensures CanStep(sys, CallArrives(ASKED))
    ensures var next := StepSystem(sys, CallArrives(ASKED));
      && next.kvs == sys.kvs && next.client.Writer? && !next.client.put.done
      && next.client.put.idx == idx && Called(next.client) == Called(sys.client)
      && next.client.contextId == sys.client.contextId && next.client.cmd == cmd
  {
  }

  /** A client that asks a server that has recorded its write is acknowledged by its second call
      there. */
  lemma RecordedWriteIsAcknowledged(sys: System, op: string, key: string, value: string, idx: int)
    requires (op == PUT || op == APPEND) && SystemInv(sys, PutAppendCmd(op, key, value))
    requires !sys.client.put.done && sys.client.put.idx == 0 && 0 <= Called(sys.client) < |sys.kvs|
    requires Recorded(sys.kvs[Called(sys.client)], sys.client.contextId, PutAppendCmd(op, key, value), idx)
    ensures var calls := [CallArrives(ASKED), CallArrives(ASKED), CallFinishes];
      && CanRun(sys, calls) && RunSystem(sys, calls).client.Writer?
      && RunSystem(sys, calls).client.put.done && RunSystem(sys, calls).client.put.idx == idx
  {
    var cmd := PutAppendCmd(op, key, value);
    FirstPhaseLearns(sys, cmd, idx);
    var learnt := StepSystem(sys, CallArrives(ASKED));
    StepKeepsSystemInv(sys, op, key, value, CallArrives(ASKED));
    SecondPhaseWaits(learnt, op, key, value, idx);
    var waiting := StepSystem(learnt, CallArrives(ASKED));
    ReturnsExactlyOnOwnCommand(waiting, op, key, value);
    OneMoreStep(waiting, CallFinishes, []);
    OneMoreStep(learnt, CallArrives(ASKED), [CallFinishes] + []);
    OneMoreStep(sys, CallArrives(ASKED), [CallArrives(ASKED)] + ([CallFinishes] + []));
    assert [CallArrives(ASKED), CallArrives(ASKED), CallFinishes] ==
           [CallArrives(ASKED)] + ([CallArrives(ASKED)] + ([CallFinishes] + []));
  }

  lemma SecondPhaseWaits(sys: System, op: string, key: string, value: string, idx: int)
    requires (op == PUT || op == APPEND) && SystemInv(sys, PutAppendCmd(op, key, value))
    requires !sys.client.put.done && sys.client.put.idx == idx && 0 <= Called(sys.client) < |sys.kvs|
    requires Recorded(sys.kvs[Called(sys.client)], sys.client.contextId, PutAppendCmd(op, key, value), idx)
    ensures CanStep(sys, CallArrives(ASKED))
    ensures var next := StepSystem(sys, CallArrives(ASKED));
      && SystemInv(next, PutAppendCmd(op, key, value)) && CanStep(next, CallFinishes)
      && next.client == sys.client && AppliedAt(next.kvs[Called(next.client)], idx, PutAppendCmd(op, key, value))
  {
    StepKeepsSystemInv(sys, op, key, value, CallArrives(ASKED));
    var next := StepSystem(sys, CallArrives(ASKED));
    WriteFillsItsCell(next.kvs[Called(next.client)], idx, op, key, value);
  }

  /** The delivery of a write records it. */
  lemma DeliveryRecords(kv: Kv, contextId: string, cmd: string, idx: int)
    requires idx >= 1 && idx !in kv.log
    ensures Recorded(KvAfter(kv, Deliver(ApplyMsg(idx, Op(contextId, cmd)))), contextId, cmd, idx)
  {
  }

  /** From any state of a client about to ask a server: once its command is delivered there at a new
      index, three calls acknowledge it, at that index. */
  lemma DeliveredWriteIsAcknowledged(sys: System, op: string, key: string, value: string, idx: int)
    requires (op == PUT || op == APPEND) && SystemInv(sys, PutAppendCmd(op, key, value)) && idx >= 1
    requires !sys.client.put.done && sys.client.put.idx == 0 && 0 <= Called(sys.client) < |sys.kvs|
    requires idx !in sys.kvs[Called(sys.client)].log
    ensures var delivery := AtServer(Called(sys.client),
                                     Deliver(ApplyMsg(idx, Op(sys.client.contextId, PutAppendCmd(op, key, value)))));
      var calls := [delivery, CallArrives(ASKED), CallArrives(ASKED), CallFinishes];
      && CanRun(sys, calls) && RunSystem(sys, calls).client.Writer?
      && RunSystem(sys, calls).client.put.done && RunSystem(sys, calls).client.put.idx == idx
  {
    var cmd, j := PutAppendCmd(op, key, value), Called(sys.client);
    var delivery := AtServer(j, Deliver(ApplyMsg(idx, Op(sys.client.contextId, cmd))));
    StepKeepsSystemInv(sys, op, key, value, delivery);
    DeliveryRecords(sys.kvs[j], sys.client.contextId, cmd, idx);
    RecordedWriteIsAcknowledged(StepSystem(sys, delivery), op, key, value, idx);
    OneMoreStep(sys, delivery, [CallArrives(ASKED), CallArrives(ASKED), CallFinishes]);
    assert [delivery, CallArrives(ASKED), CallArrives(ASKED), CallFinishes] ==
           [delivery] + [CallArrives(ASKED), CallArrives(ASKED), CallFinishes];
  }

  // ---------------------------------------------------------------- acknowledged writes

  /** The server's replay executes cmd as its k-th command. */
  ghost predicate ReplayIncludes(kv: Kv, k: int, cmd: string)
    requires OrderOk(kv.log, kv.order)
  {
    && 0 <= k < |kv.order| && CommandsAt(kv.log, kv.order)[k] == cmd
    && kv.db == Replay(CommandsAt(kv.log, kv.order))
  }

  /** When PutAppend has returned, some server has exactly the command in its applied log at the
      index the client held, and its database is a replay that includes it. */
  lemma AcknowledgedWriteWasApplied(
    n: nat, lastLeader: int, contextId: string, op: string, key: string, value: string, steps: seq<SystemStep>)
    requires op == PUT || op == APPEND
    requires CanRun(StartWrite(n, lastLeader, contextId, PutAppendCmd(op, key, value)), steps)
    requires Returned(RunSystem(StartWrite(n, lastLeader, contextId, PutAppendCmd(op, key, value)), steps).client)
    ensures var end := RunSystem(StartWrite(n, lastLeader, contextId, PutAppendCmd(op, key, value)), steps);
      && end.client.Writer?
      && exists j, k :: 0 <= j < |end.kvs| && KvInv(end.kvs[j])
           && ReplayIncludes(end.kvs[j], k, PutAppendCmd(op, key, value))
           && end.kvs[j].order[k] == end.client.put.idx
  {
    var cmd := PutAppendCmd(op, key, value);
    var start := StartWrite(n, lastLeader, contextId, cmd);
    RunKeepsSystemInv(start, op, key, value, steps);
    var end := RunSystem(start, steps);
    var j :| 0 <= j < |end.kvs| && AppliedAt(end.kvs[j], end.client.put.idx, cmd);
    assert KvInv(end.kvs[j]);
    assert end.client.put.idx in end.kvs[j].order;
    var k :| 0 <= k < |end.kvs[j].order| && end.kvs[j].order[k] == end.client.put.idx;
    assert ReplayIncludes(end.kvs[j], k, cmd);
  }
}
