/** One client in the middle of a PutAppend or a Get, against a set of key/value servers: any
    calls and replies may be lost, and anything may happen at the servers in between. */
module Clients {
  import opened RaftTypes
  import opened KvServer
  import opened KvReplay
  import opened Clerk
  import Commands

  /** The arguments of the call and its loop. `waiting` is the index whose cell the handler of a
      Get's current call waits for, or waited for when Get has returned. */
  datatype Client =
    | Writer(contextId: string, cmd: string, put: Loop)
    | Reader(contextId: string, key: string, get: GetLoop, waiting: Option<int>)

  datatype System = System(kvs: seq<Kv>, client: Client)

  /** A delivery or a handler call at a server, by this or any other client, whose reply goes
      nowhere; or a call of this client that fails, that a handler answers at once or begins to
      wait for, or whose wait is over. */
  datatype SystemStep =
    | AtServer(server: int, event: KvEvent)
    | CallFails
    | CallArrives(raft: RaftAnswers)
    | CallFinishes

  /** The client's call has returned. */
  predicate Returned(client: Client) {
    match client
    case Writer(contextId, cmd, put) => put.done
    case Reader(contextId, key, get, waiting) => get.found.Some?
  }

  /** The server the client calls. */
  function Called(client: Client): int {
    match client
    case Writer(contextId, cmd, put) => Target(put)
    case Reader(contextId, key, get, waiting) => GetTarget(get)
  }

  /** The index of the cell that can answer the client: the one its second phase names, or the
      one its Get waits for. */
  function AnswerIndex(client: Client): Option<int> {
    match client
    case Writer(contextId, cmd, put) => if put.idx != 0 then Some(put.idx) else None
    case Reader(contextId, key, get, waiting) => waiting
  }

  /** The call as the handler sees it. */
  function HandlerCall(client: Client, raft: RaftAnswers): KvEvent {
    match client
    case Writer(contextId, cmd, put) => PutAppendCall(PutAppendArgs(contextId, cmd, put.idx), raft)
    case Reader(contextId, key, get, waiting) => GetCall(contextId, raft)
  }

  predicate CanStep(sys: System, step: SystemStep) {
    match step
    case AtServer(j, e) => 0 <= j < |sys.kvs|
    case CallFails => !Returned(sys.client)
    case CallArrives(raft) =>
      !Returned(sys.client) && 0 <= Called(sys.client) < |sys.kvs| && (sys.client.Reader? ==> sys.client.waiting.None?)
    case CallFinishes =>
      && !Returned(sys.client) && 0 <= Called(sys.client) < |sys.kvs|
      && AnswerIndex(sys.client).Some?
      && CellAt(sys.kvs[Called(sys.client)].ops, AnswerIndex(sys.client).value).Some?
  }

  function AfterFailure(client: Client, n: nat): Client {
    match client
    case Writer(contextId, cmd, put) =>
      client.(put := AfterCall(put, n, CallResult(false, PutAppendReply(false, NoErr, 0))))
    case Reader(contextId, key, get, waiting) =>
      client.(get := AfterGetCall(get, n, GetResult(false, GetReply(false, NoErr, ""))), waiting := None)
  }

  /** The client once its call has reached a handler, which may have replied. */
  function AfterArrival(client: Client, n: nat, kv: Kv, raft: RaftAnswers): Client {
    match client
    case Writer(contextId, cmd, put) =>
      var (_, reply) := BeginPutAppend(kv, PutAppendArgs(contextId, cmd, put.idx), raft);
      if reply.None? then client else client.(put := AfterCall(put, n, CallResult(true, reply.value)))
    case Reader(contextId, key, get, waiting) =>
      var (_, reply, idx) := BeginGet(kv, contextId, raft);
      if reply.None? then client.(waiting := Some(idx))
      else client.(get := AfterGetCall(get, n, GetResult(true, reply.value)))
  }

  /** The client once the handler has found its cell full. */
  function AfterAnswer(client: Client, n: nat, kv: Kv): Client
    requires AnswerIndex(client).Some? && CellAt(kv.ops, AnswerIndex(client).value).Some?
  {
    match client
    case Writer(contextId, cmd, put) =>
      var reply := FinishPutAppend(kv, PutAppendArgs(contextId, cmd, put.idx));
      client.(put := AfterCall(put, n, CallResult(true, reply)))
    case Reader(contextId, key, get, waiting) =>
      var reply := FinishGet(kv, waiting.value, Commands.GetCmd(key));
      client.(get := AfterGetCall(get, n, GetResult(true, reply)))
  }

  function StepSystem(sys: System, step: SystemStep): System
    requires CanStep(sys, step)
  {
    var n, j := |sys.kvs|, Called(sys.client);
    match step
    case AtServer(i, e) => sys.(kvs := sys.kvs[i := KvAfter(sys.kvs[i], e)])
    case CallFails => sys.(client := AfterFailure(sys.client, n))
    case CallArrives(raft) =>
      System(sys.kvs[j := KvAfter(sys.kvs[j], HandlerCall(sys.client, raft))],
             AfterArrival(sys.client, n, sys.kvs[j], raft))
    case CallFinishes => sys.(client := AfterAnswer(sys.client, n, sys.kvs[j]))
  }

  predicate CanRun(sys: System, steps: seq<SystemStep>)
    decreases |steps|
  {
    steps == [] || (CanStep(sys, steps[0]) && CanRun(StepSystem(sys, steps[0]), steps[1..]))
  }

  function RunSystem(sys: System, steps: seq<SystemStep>): System
    requires CanRun(sys, steps)
    decreases |steps|
  {
    if steps == [] then sys else RunSystem(StepSystem(sys, steps[0]), steps[1..])
  }

  /** n fresh servers and a client about to write; it remembers any leader or none. */
  function StartWrite(n: nat, lastLeader: int, contextId: string, cmd: string): System {
    System(seq(n, _ => EMPTY_KV), Writer(contextId, cmd, Loop(lastLeader, 0, 0, 0, false)))
  }

  /** n fresh servers and a client about to read. */
  function StartRead(n: nat, lastLeader: int, contextId: string, key: string): System {
    System(seq(n, _ => EMPTY_KV), Reader(contextId, key, GetStart(lastLeader), None))
  }

  // ---------------------------------------------------------------- what happens at a server

  /** What happens at server j in one step: a delivery, a handler call, or nothing. */
  function EventAt(sys: System, step: SystemStep, j: int): seq<KvEvent> {
    match step
    case AtServer(i, e) => if i == j then [e] else []
    case CallArrives(raft) => if Called(sys.client) == j then [HandlerCall(sys.client, raft)] else []
    case _ => []
  }

  /** What happens at server j in a run. */
  function EventsAt(sys: System, steps: seq<SystemStep>, j: int): seq<KvEvent>
    requires CanRun(sys, steps)
    decreases |steps|
  {
    if steps == [] then []
    else EventAt(sys, steps[0], j) + EventsAt(StepSystem(sys, steps[0]), steps[1..], j)
  }

  lemma {:induction false} RunHasServers(sys: System, steps: seq<SystemStep>)
    requires CanRun(sys, steps)
    ensures |RunSystem(sys, steps).kvs| == |sys.kvs|
    decreases |steps|
  {
    if steps == [] {
    } else {
      RunHasServers(StepSystem(sys, steps[0]), steps[1..]);
    }
  }

  /** A server's state is the run of what happened there. */
  lemma {:induction false} ServerRunsItsEvents(sys: System, steps: seq<SystemStep>, j: int)
    requires CanRun(sys, steps) && 0 <= j < |sys.kvs|
    ensures j < |RunSystem(sys, steps).kvs|
    ensures RunSystem(sys, steps).kvs[j] == KvRun(sys.kvs[j], EventsAt(sys, steps, j))
    decreases |steps|
  {
    if steps == [] {
    } else {
      var next := StepSystem(sys, steps[0]);
      ServerRunsItsEvents(next, steps[1..], j);
      RunAfterAtMostOne(sys.kvs[j], EventAt(sys, steps[0], j), EventsAt(next, steps[1..], j));
    }
  }

  lemma OneMoreStep(sys: System, step: SystemStep, rest: seq<SystemStep>)
    requires CanStep(sys, step) && CanRun(StepSystem(sys, step), rest)
    ensures CanRun(sys, [step] + rest)
    ensures RunSystem(sys, [step] + rest) == RunSystem(StepSystem(sys, step), rest)
  {
    assert ([step] + rest)[1..] == rest;
  }
}
