/** A client's Get: whatever calls and replies are lost and however often it switches servers,
    what it returns is what some server's replay says at the index it waited for. */
module AnsweredReads {
  import opened RaftTypes
  import opened Commands
  import opened KvServer
  import opened KvReplay
  import opened Clerk
  import opened Clients

  /** What was found is what the server's replay says at idx, delivered k-th. */
  ghost predicate Seen(kv: Kv, k: int, idx: int, key: string, found: Found) {
    KvInv(kv) && 0 <= k < |kv.order| && kv.order[k] == idx && found == Looked(kv, k, key)
  }

  ghost predicate SeenAmong(kvs: seq<Kv>, idx: int, key: string, found: Found) {
    exists j, k :: 0 <= j < |kvs| && Seen(kvs[j], k, idx, key, found)
  }

  /** Some server's replay says what was found, at the index waited for. */
  ghost predicate PointInTime(sys: System)
    requires sys.client.Reader? && sys.client.get.found.Some?
  {
    var client := sys.client;
    client.waiting.Some? && SeenAmong(sys.kvs, client.waiting.value, client.key, client.get.found.value)
  }

  ghost predicate SystemInv(sys: System, key: string) {
    && (forall j :: 0 <= j < |sys.kvs| ==> KvInv(sys.kvs[j]))
    && sys.client.Reader? && sys.client.key == key
    && (sys.client.get.found.Some? ==> PointInTime(sys))
  }

  /** What a server has said of an index stays so. */
  lemma EventKeepsSeen(kv: Kv, e: KvEvent, k: int, idx: int, key: string, found: Found)
    requires Seen(kv, k, idx, key, found)
    ensures Seen(KvAfter(kv, e), k, idx, key, found)
  {
    EventKeepsInv(kv, e);
    var next := KvAfter(kv, e);
    assert next.order[k] == kv.order[k] && next.order[..k] == kv.order[..k];
    assert CommandsAt(next.log, next.order[..k]) == CommandsAt(kv.log, kv.order[..k]);
  }

  lemma SeenStays(kvs: seq<Kv>, j: int, e: KvEvent, idx: int, key: string, found: Found)
    requires 0 <= j < |kvs| && SeenAmong(kvs, idx, key, found)
    ensures SeenAmong(kvs[j := KvAfter(kvs[j], e)], idx, key, found)
  {
    var i, k :| 0 <= i < |kvs| && Seen(kvs[i], k, idx, key, found);
    if i == j {
      EventKeepsSeen(kvs[j], e, k, idx, key, found);
    }
    assert Seen(kvs[j := KvAfter(kvs[j], e)][i], k, idx, key, found);
  }

  lemma ServerEventKeepsInv(sys: System, key: string, j: int, e: KvEvent, client: Client)
    requires SystemInv(sys, key) && 0 <= j < |sys.kvs|
    requires client.Reader? && client.key == key && (client.get.found.Some? ==> client == sys.client)
    ensures SystemInv(System(sys.kvs[j := KvAfter(sys.kvs[j], e)], client), key)
  {
    EventKeepsInv(sys.kvs[j], e);
    if client.get.found.Some? {
      SeenStays(sys.kvs, j, e, client.waiting.value, key, client.get.found.value);
    }
  }

  lemma ArrivingCallFindsNothing(client: Client, n: nat, kv: Kv, raft: RaftAnswers)
    requires client.Reader? && client.get.found.None?
    ensures AfterArrival(client, n, kv, raft).Reader? && AfterArrival(client, n, kv, raft).key == client.key
    ensures AfterArrival(client, n, kv, raft).get.found.None?
  {
  }

  /** A call that is answered from a full cell ends the read with what the replay says. */
  lemma FinishedCallIsSeen(sys: System, key: string)
    requires SystemInv(sys, key) && CanStep(sys, CallFinishes) && ReadableKey(key)
    ensures SystemInv(StepSystem(sys, CallFinishes), key) && Returned(StepSystem(sys, CallFinishes).client)
  {
    var kv, idx := sys.kvs[Called(sys.client)], sys.client.waiting.value;
    assert KvInv(kv);
    assert idx in kv.order;
    var k :| 0 <= k < |kv.order| && kv.order[k] == idx;
    ReadsAreExact(kv, k, key);
    assert Seen(kv, k, idx, key, StepSystem(sys, CallFinishes).client.get.found.value);
  }

  lemma StepKeepsSystemInv(sys: System, key: string, step: SystemStep)
    requires SystemInv(sys, key) && CanStep(sys, step) && ReadableKey(key)
    ensures SystemInv(StepSystem(sys, step), key)
  {
    var j := Called(sys.client);
    match step
    case AtServer(i, e) => ServerEventKeepsInv(sys, key, i, e, sys.client);
    case CallFails =>
    case CallArrives(raft) =>
      ArrivingCallFindsNothing(sys.client, |sys.kvs|, sys.kvs[j], raft);
      ServerEventKeepsInv(sys, key, j, HandlerCall(sys.client, raft), StepSystem(sys, step).client);
    case CallFinishes => FinishedCallIsSeen(sys, key);
  }

  lemma {:induction false} RunKeepsSystemInv(sys: System, key: string, steps: seq<SystemStep>)
    requires SystemInv(sys, key) && CanRun(sys, steps) && ReadableKey(key)
    ensures SystemInv(RunSystem(sys, steps), key)
    decreases |steps|
  {
    if steps == [] {
    } else {
      StepKeepsSystemInv(sys, key, steps[0]);
      RunKeepsSystemInv(StepSystem(sys, steps[0]), key, steps[1..]);
    }
  }

  /** A client's Get of the key, against n servers, has returned. */
  ghost predicate ReadReturned(n: nat, lastLeader: int, contextId: string, key: string, steps: seq<SystemStep>) {
    && CanRun(StartRead(n, lastLeader, contextId, key), steps)
    && Returned(RunSystem(StartRead(n, lastLeader, contextId, key), steps).client)
  }

  /** What it returned is what some server's replay says. */
  ghost predicate ReadIsPointInTime(n: nat, lastLeader: int, contextId: string, key: string, steps: seq<SystemStep>)
    requires ReadReturned(n, lastLeader, contextId, key, steps)
  {
    var end := RunSystem(StartRead(n, lastLeader, contextId, key), steps);
    end.client.Reader? && PointInTime(end)
  }

  /** When Get has returned, some server's replay says so at the index waited for: the value found
      is what the key was bound to just before the Get logged there, up to the first "<<>>"; and
      "No key" means that the index carries other words or that the key was unbound. */
  lemma AnsweredReadIsPointInTime(n: nat, lastLeader: int, contextId: string, key: string, steps: seq<SystemStep>)
    requires ReadReturned(n, lastLeader, contextId, key, steps) && ReadableKey(key)
    ensures ReadIsPointInTime(n, lastLeader, contextId, key, steps)
  {
    RunKeepsSystemInv(StartRead(n, lastLeader, contextId, key), key, steps);
  }

  // ---------------------------------------------------------------- the keys for which this holds

  /** A client's whole run: a write, its call, the command of the index it is told, its answer. */
  function CallAfterWrite(write: string, cmd: string): seq<SystemStep> {
    [AtServer(0, WriteThenWait(write, cmd)[0]), CallArrives(RaftAnswers(true, true, Some(2))),
     AtServer(0, WriteThenWait(write, cmd)[2]), CallFinishes]
  }

  /** The server when the answer is due. */
  function Waiting(write: string, cmd: string, key: string): System {
    System([KvRun(EMPTY_KV, WriteThenWait(write, cmd))], Reader("reader", key, GetStart(0), Some(2)))
  }

  lemma CallWaits(write: string, cmd: string, key: string)
    ensures var steps := CallAfterWrite(write, cmd);
      var s0 := StartRead(1, 0, "reader", key);
      && CanStep(s0, steps[0])
      && var s1 := StepSystem(s0, steps[0]);
      CanStep(s1, steps[1])
      && var s2 := StepSystem(s1, steps[1]);
      CanStep(s2, steps[2])
      && StepSystem(s2, steps[2]) == Waiting(write, cmd, key)
  {
    var events := WriteThenWait(write, cmd);
    RunOfThree(EMPTY_KV, events[0], events[1], events[2]);
  }

  lemma CallRuns(write: string, cmd: string, key: string)
    requires CellAt(Waiting(write, cmd, key).kvs[0].ops, 2).Some?
    ensures CanRun(StartRead(1, 0, "reader", key), CallAfterWrite(write, cmd))
    ensures RunSystem(StartRead(1, 0, "reader", key), CallAfterWrite(write, cmd)) ==
            StepSystem(Waiting(write, cmd, key), CallFinishes)
  {
    var steps, s0 := CallAfterWrite(write, cmd), StartRead(1, 0, "reader", key);
    CallWaits(write, cmd, key);
    var s1 := StepSystem(s0, steps[0]);
    var s2 := StepSystem(s1, steps[1]);
    OneMoreStep(Waiting(write, cmd, key), CallFinishes, []);
    OneMoreStep(s2, steps[2], [CallFinishes] + []);
    OneMoreStep(s1, steps[1], [steps[2]] + ([CallFinishes] + []));
    OneMoreStep(s0, steps[0], [steps[1]] + ([steps[2]] + ([CallFinishes] + [])));
    assert steps == [steps[0]] + ([steps[1]] + ([steps[2]] + ([CallFinishes] + [])));
  }

  /** The write of the part of a key before ":::", and a read of the key. */
  function BrokenRead(key: string): seq<SystemStep> {
    CallAfterWrite(PutAppendCmd(PUT, Head(key, OP_SEPARATOR), ""), GetCmd(key))
  }

  /** The client is given what was written to the part before ":::", though its key never was. */
  lemma BrokenKeyIsFound(key: string)
    requires !ReadableKey(key)
    ensures ReadReturned(1, 0, "reader", key, BrokenRead(key))
    ensures !ReadIsPointInTime(1, 0, "reader", key, BrokenRead(key))
  {
    var write := PutAppendCmd(PUT, Head(key, OP_SEPARATOR), "");
    BrokenKeyReadsItsHead(key, "");
    AfterWriteThenWait(write, GetCmd(key));
    CallRuns(write, GetCmd(key), key);
    NotPointInTime(StepSystem(Waiting(write, GetCmd(key), key), CallFinishes));
  }

  lemma NotPointInTime(sys: System)
    requires sys.client.Reader? && sys.client.waiting == Some(2) && sys.client.get.found.Some?
    requires |sys.kvs| == 1 && KvInv(sys.kvs[0]) && sys.kvs[0].order == [1, 2]
    requires sys.client.get.found.value != Looked(sys.kvs[0], 1, sys.client.key)
    ensures !PointInTime(sys)
  {
    forall j, k | 0 <= j < 1
      ensures !Seen(sys.kvs[j], k, 2, sys.client.key, sys.client.get.found.value)
    {
      assert k == 0 ==> sys.kvs[0].order[k] != 2;
    }
  }

  /** A client's reads of the key are answered as some server's replay says, in every run against
      any number of servers, if and only if the key has no ":::" or has a "<<>>". */
  lemma AnsweredReadsArePointInTimeIffReadable(key: string)
    ensures (forall n: nat, lastLeader, contextId, steps | ReadReturned(n, lastLeader, contextId, key, steps) ::
               ReadIsPointInTime(n, lastLeader, contextId, key, steps))
            <==> ReadableKey(key)
  {
    if ReadableKey(key) {
      forall n: nat, lastLeader, contextId, steps | ReadReturned(n, lastLeader, contextId, key, steps)
        ensures ReadIsPointInTime(n, lastLeader, contextId, key, steps)
      {
        AnsweredReadIsPointInTime(n, lastLeader, contextId, key, steps);
      }
    } else {
      BrokenKeyIsFound(key);
    }
  }
}
