/** What a key/value server's database and result cells mean, over any run of deliveries and
    handler calls. */
module KvReplay {
  import opened RaftTypes
  import opened Commands
  import opened KvServer

  datatype KvEvent =
    | Deliver(msg: ApplyMsg)
    | PutAppendCall(args: PutAppendArgs, raft: RaftAnswers)
    | GetCall(contextId: string, raft: RaftAnswers)

  function KvAfter(kv: Kv, e: KvEvent): Kv {
    match e
    case Deliver(msg) => OnApply(kv, msg)
    case PutAppendCall(args, raft) => BeginPutAppend(kv, args, raft).0
    case GetCall(contextId, raft) => BeginGet(kv, contextId, raft).0
  }

  function KvRun(kv: Kv, events: seq<KvEvent>): Kv
    decreases |events|
  {
    if events == [] then kv else KvRun(KvAfter(kv, events[0]), events[1..])
  }

  lemma RunAfterAtMostOne(kv: Kv, first: seq<KvEvent>, rest: seq<KvEvent>)
    requires |first| <= 1
    ensures KvRun(kv, first + rest) == KvRun(if first == [] then kv else KvAfter(kv, first[0]), rest)
  {
    if first == [] {
      assert first + rest == rest;
    } else {
      assert (first + rest)[1..] == rest;
    }
  }

  /** The command an event delivers for the first time: an operation whose index is not among
      those seen. */
  function NewCommand(e: KvEvent, seen: set<int>): seq<string> {
    if e.Deliver? && e.msg.command.Op? && e.msg.index !in seen then [e.msg.command.cmd] else []
  }

  function SeenAfter(e: KvEvent, seen: set<int>): set<int> {
    if e.Deliver? && e.msg.command.Op? then seen + {e.msg.index} else seen
  }

  function FirstDeliveries(events: seq<KvEvent>, seen: set<int>): seq<string>
    decreases |events|
  {
    if events == [] then []
    else NewCommand(events[0], seen) + FirstDeliveries(events[1..], SeenAfter(events[0], seen))
  }

  /** The commands of the given indices. */
  function CommandsAt(log: map<int, string>, order: seq<int>): (r: seq<string>)
    requires forall k :: 0 <= k < |order| ==> order[k] in log
    ensures |r| == |order|
  {
    seq(|order|, k requires 0 <= k < |order| && order[k] in log => log[order[k]])
  }

  /** The operation of a command fills a cell on first delivery. */
  predicate Answers(cmd: string) {
    Answer(map[], cmd).Some?
  }

  /** The cell of the index delivered k-th holds the answer computed from the database before it. */
  ghost predicate CellOk(kv: Kv, k: nat)
    requires k < |kv.order| && forall j :: 0 <= j < |kv.order| ==> kv.order[j] in kv.log
  {
    var idx := kv.order[k];
    if Answers(kv.log[idx]) then
      CellAt(kv.ops, idx) == Answer(Replay(CommandsAt(kv.log, kv.order[..k])), kv.log[idx])
    else CellAt(kv.ops, idx) in {None, Some(Outcome(kv.log[idx], true))}
  }

  /** The history lists each logged index exactly once. */
  ghost predicate OrderOk(log: map<int, string>, order: seq<int>) {
    && (forall k :: 0 <= k < |order| ==> order[k] in log)
    && (forall i :: i in log ==> i in order)
    && (forall j, k :: 0 <= j < k < |order| ==> order[j] != order[k])
  }

  ghost predicate KvInv(kv: Kv) {
    && OrderOk(kv.log, kv.order)
    && kv.db == Replay(CommandsAt(kv.log, kv.order))
    && (forall k :: 0 <= k < |kv.order| ==> CellOk(kv, k))
    && (forall idx :: CellAt(kv.ops, idx).Some? ==> idx in kv.log)
  }

  // ---------------------------------------------------------------- one event

  lemma ReplayOfAppended(cmds: seq<string>, cmd: string)
    ensures Replay(cmds + [cmd]) == Execute(Replay(cmds), cmd)
  {
    assert (cmds + [cmd])[..|cmds|] == cmds;
  }

  lemma AnswersDependsOnCommand(db: map<string, string>, cmd: string)
    ensures Answer(db, cmd).Some? <==> Answers(cmd)
  {
  }

  /** What an event keeps: log entries, their order and the full cells. */
  ghost predicate Extends(kv: Kv, next: Kv) {
    && kv.order <= next.order
    && (forall i :: i in kv.log ==> i in next.log && next.log[i] == kv.log[i])
    && (forall i :: CellAt(kv.ops, i).Some? ==> CellAt(next.ops, i) == CellAt(kv.ops, i))
  }

  predicate InLog(log: map<int, string>, order: seq<int>) {
    forall k :: 0 <= k < |order| ==> order[k] in log
  }

  lemma CommandsUnaffected(log: map<int, string>, order: seq<int>, idx: int, cmd: string)
    requires InLog(log, order) && idx !in order
    ensures CommandsAt(log[idx := cmd], order) == CommandsAt(log, order)
  {
  }

  lemma CommandsOfAppended(log: map<int, string>, order: seq<int>, idx: int, cmd: string)
    requires InLog(log, order) && idx !in order
    ensures CommandsAt(log[idx := cmd], order + [idx]) == CommandsAt(log, order) + [cmd]
  {
    CommandsUnaffected(log, order, idx, cmd);
  }

  /** The cells of what was delivered before keep their meaning. */
  lemma OlderCellStaysOk(kv: Kv, idx: int, contextId: string, cmd: string, k: nat)
    requires KvInv(kv) && idx !in kv.log && k < |kv.order|
    ensures InLog(OnFirstDelivery(kv, idx, contextId, cmd).log, OnFirstDelivery(kv, idx, contextId, cmd).order)
    ensures CellOk(OnFirstDelivery(kv, idx, contextId, cmd), k)
  {
    assert CellOk(kv, k);
    assert (kv.order + [idx])[..k] == kv.order[..k];
    CommandsUnaffected(kv.log, kv.order[..k], idx, cmd);
  }

  /** The delivered command finds its cell empty and fills it with the answer from the database. */
  lemma NewCellIsOk(kv: Kv, idx: int, contextId: string, cmd: string)
    requires KvInv(kv) && idx !in kv.log
    ensures InLog(OnFirstDelivery(kv, idx, contextId, cmd).log, OnFirstDelivery(kv, idx, contextId, cmd).order)
    ensures CellOk(OnFirstDelivery(kv, idx, contextId, cmd), |kv.order|)
  {
    AnswersDependsOnCommand(kv.db, cmd);
    NewCellIsFilled(kv, idx, contextId, cmd);
    assert (kv.order + [idx])[..|kv.order|] == kv.order;
    CommandsUnaffected(kv.log, kv.order, idx, cmd);
  }

  lemma NewCellIsFilled(kv: Kv, idx: int, contextId: string, cmd: string)
    requires CellAt(kv.ops, idx) == None
    ensures CellAt(OnFirstDelivery(kv, idx, contextId, cmd).ops, idx) == Answer(kv.db, cmd)
  {
  }

  lemma AppendedOrderIsOk(log: map<int, string>, order: seq<int>, idx: int, cmd: string)
    requires OrderOk(log, order) && idx !in log
    ensures OrderOk(log[idx := cmd], order + [idx])
  {
  }

  lemma FirstDeliveryKeepsInv(kv: Kv, idx: int, contextId: string, cmd: string)
    requires KvInv(kv) && idx !in kv.log
    ensures KvInv(OnFirstDelivery(kv, idx, contextId, cmd))
    ensures Extends(kv, OnFirstDelivery(kv, idx, contextId, cmd))
  {
    AppendedOrderIsOk(kv.log, kv.order, idx, cmd);
    FirstDeliveryReplays(kv, idx, contextId, cmd);
    forall k | 0 <= k < |kv.order| + 1
      ensures CellOk(OnFirstDelivery(kv, idx, contextId, cmd), k)
    {
      if k < |kv.order| {
        OlderCellStaysOk(kv, idx, contextId, cmd, k);
      } else {
        NewCellIsOk(kv, idx, contextId, cmd);
      }
    }
  }

  lemma FirstDeliveryReplays(kv: Kv, idx: int, contextId: string, cmd: string)
    requires OrderOk(kv.log, kv.order) && kv.db == Replay(CommandsAt(kv.log, kv.order)) && idx !in kv.log
    ensures InLog(OnFirstDelivery(kv, idx, contextId, cmd).log, OnFirstDelivery(kv, idx, contextId, cmd).order)
    ensures var next := OnFirstDelivery(kv, idx, contextId, cmd);
      next.db == Replay(CommandsAt(next.log, next.order))
  {
    CommandsOfAppended(kv.log, kv.order, idx, cmd);
    ReplayOfAppended(CommandsAt(kv.log, kv.order), cmd);
  }

  /** A change to cells alone that fills none, or fills a non-answering one with its command. */
  lemma CellChangeKeepsInv(kv: Kv, next: Kv)
    requires KvInv(kv) && next.log == kv.log && next.db == kv.db && next.order == kv.order
    requires forall i :: CellAt(next.ops, i) == CellAt(kv.ops, i) ||
               (i in kv.log && !Answers(kv.log[i]) && CellAt(kv.ops, i) == None
                && CellAt(next.ops, i) == Some(Outcome(kv.log[i], true)))
    ensures KvInv(next) && Extends(kv, next)
  {
    forall k | 0 <= k < |next.order|
      ensures CellOk(next, k)
    {
      assert CellOk(kv, k);
      AnswersDependsOnCommand(Replay(CommandsAt(kv.log, kv.order[..k])), kv.log[kv.order[k]]);
    }
  }

  /** A redelivery changes at most the cell of a command that is no operation. */
  lemma RedeliveryKeepsInv(kv: Kv, idx: int)
    requires KvInv(kv) && idx in kv.log
    ensures KvInv(OnRedelivery(kv, idx)) && Extends(kv, OnRedelivery(kv, idx))
    ensures Answers(kv.log[idx]) ==> OnRedelivery(kv, idx) == kv
  {
    var k :| 0 <= k < |kv.order| && kv.order[k] == idx;
    assert CellOk(kv, k);
    AnswersDependsOnCommand(Replay(CommandsAt(kv.log, kv.order[..k])), kv.log[idx]);
    if Answers(kv.log[idx]) {
      assert kv.ops[idx := kv.ops[idx]] == kv.ops;
    }
    CellChangeKeepsInv(kv, OnRedelivery(kv, idx));
  }

  lemma EventKeepsInv(kv: Kv, e: KvEvent)
    requires KvInv(kv)
    ensures KvInv(KvAfter(kv, e)) && Extends(kv, KvAfter(kv, e))
  {
    match e
    case Deliver(msg) =>
      if msg.command.Op? {
        if msg.index in kv.log {
          RedeliveryKeepsInv(kv, msg.index);
        } else {
          FirstDeliveryKeepsInv(kv, msg.index, msg.command.contextId, msg.command.cmd);
        }
      }
    case PutAppendCall(args, raft) => CellChangeKeepsInv(kv, KvAfter(kv, e));
    case GetCall(contextId, raft) => CellChangeKeepsInv(kv, KvAfter(kv, e));
  }

  lemma {:induction false} RunKeepsInv(kv: Kv, events: seq<KvEvent>)
    requires KvInv(kv)
    ensures KvInv(KvRun(kv, events)) && Extends(kv, KvRun(kv, events))
    decreases |events|
  {
    if events == [] {
    } else {
      EventKeepsInv(kv, events[0]);
      RunKeepsInv(KvAfter(kv, events[0]), events[1..]);
    }
  }

  // ---------------------------------------------------------------- replay

  lemma NewDeliveryIsLogged(kv: Kv, idx: int, contextId: string, cmd: string)
    requires OrderOk(kv.log, kv.order) && idx !in kv.log
    ensures var next := OnFirstDelivery(kv, idx, contextId, cmd);
      && InLog(next.log, next.order) && next.log.Keys == kv.log.Keys + {idx}
      && CommandsAt(next.log, next.order) == CommandsAt(kv.log, kv.order) + [cmd]
  {
    CommandsOfAppended(kv.log, kv.order, idx, cmd);
  }

  lemma EventLogsFirstDelivery(kv: Kv, e: KvEvent)
    requires KvInv(kv)
    ensures KvInv(KvAfter(kv, e)) && KvAfter(kv, e).log.Keys == SeenAfter(e, kv.log.Keys)
    ensures CommandsAt(KvAfter(kv, e).log, KvAfter(kv, e).order) ==
            CommandsAt(kv.log, kv.order) + NewCommand(e, kv.log.Keys)
  {
    EventKeepsInv(kv, e);
    if e.Deliver? && e.msg.command.Op? && e.msg.index !in kv.log {
      NewDeliveryIsLogged(kv, e.msg.index, e.msg.command.contextId, e.msg.command.cmd);
    } else {
      OldEventKeepsLog(kv, e);
    }
  }

  lemma OldEventKeepsLog(kv: Kv, e: KvEvent)
    requires NewCommand(e, kv.log.Keys) == []
    ensures KvAfter(kv, e).log == kv.log && KvAfter(kv, e).order == kv.order && KvAfter(kv, e).db == kv.db
  {
  }

  /** The log grows by exactly the first deliveries, in the order delivered. */
  lemma {:induction false} RunLogsFirstDeliveries(kv: Kv, events: seq<KvEvent>)
    requires KvInv(kv)
    ensures KvInv(KvRun(kv, events))
    ensures CommandsAt(KvRun(kv, events).log, KvRun(kv, events).order) ==
            CommandsAt(kv.log, kv.order) + FirstDeliveries(events, kv.log.Keys)
    decreases |events|
  {
    if events == [] {
    } else {
      EventLogsFirstDelivery(kv, events[0]);
      RunLogsFirstDeliveries(KvAfter(kv, events[0]), events[1..]);
      Associative(CommandsAt(kv.log, kv.order), NewCommand(events[0], kv.log.Keys),
                  FirstDeliveries(events[1..], SeenAfter(events[0], kv.log.Keys)));
    }
  }

  lemma Associative(a: seq<string>, b: seq<string>, c: seq<string>)
    ensures (a + b) + c == a + (b + c)
  {
  }

  /** For any stream of deliveries, with any redelivery of indices and any handler calls between,
      the database is the replay of the first deliveries alone. */
  lemma DatabaseIsReplay(events: seq<KvEvent>)
    ensures KvInv(KvRun(EMPTY_KV, events))
    ensures KvRun(EMPTY_KV, events).db == Replay(FirstDeliveries(events, {}))
  {
    assert EMPTY_KV.log.Keys == {};
    RunLogsFirstDeliveries(EMPTY_KV, events);
    assert CommandsAt(map[], []) + FirstDeliveries(events, {}) == FirstDeliveries(events, {});
  }

  /** Delivering again what was delivered leaves database, log and order as they are. */
  lemma {:induction false} ReplayFromStartChangesNothing(kv: Kv, again: seq<KvEvent>)
    requires KvInv(kv)
    requires forall e :: e in again ==> e.Deliver? && e.msg.index in kv.log
    ensures var end := KvRun(kv, again); end.db == kv.db && end.log == kv.log && end.order == kv.order
    ensures (forall i :: i in kv.log ==> Answers(kv.log[i])) ==> KvRun(kv, again) == kv
    decreases |again|
  {
    if again == [] {
    } else {
      assert again[0] in again;
      EventKeepsInv(kv, again[0]);
      OldEventKeepsLog(kv, again[0]);
      if again[0].msg.command.Op? {
        RedeliveryKeepsInv(kv, again[0].msg.index);
      }
      ReplayFromStartChangesNothing(KvAfter(kv, again[0]), again[1..]);
    }
  }

  // ---------------------------------------------------------------- reads

  /** A full cell never changes again, and what was delivered before its index stays the same. */
  lemma AnswersAreStable(kv: Kv, events: seq<KvEvent>, k: nat)
    requires KvInv(kv) && k < |kv.order| && CellAt(kv.ops, kv.order[k]).Some?
    ensures var end := KvRun(kv, events);
      && KvInv(end) && k < |end.order| && end.order[k] == kv.order[k]
      && CellAt(end.ops, kv.order[k]) == CellAt(kv.ops, kv.order[k])
      && CommandsAt(end.log, end.order[..k]) == CommandsAt(kv.log, kv.order[..k])
  {
    RunKeepsInv(kv, events);
    var end := KvRun(kv, events);
    assert end.order[..k] == kv.order[..k];
    assert CommandsAt(end.log, end.order[..k]) == CommandsAt(kv.log, kv.order[..k]);
  }

  /** The read that waits on the index delivered k-th, when the command there is its own: it
      answers OK exactly when the key was bound in the replay of what was delivered before, with
      the bound value up to the first "<<>>", which is all of it exactly when it contains none. */
  lemma ReadsArePointInTime(kv: Kv, k: nat, key: string)
    requires KvInv(kv) && k < |kv.order| && kv.log[kv.order[k]] == GetCmd(key)
    requires !Contains(GetCmd(key), KEY_VALUE_SEPARATOR)
    ensures CellAt(kv.ops, kv.order[k]).Some?
    ensures var before := Replay(CommandsAt(kv.log, kv.order[..k]));
            var asked := ParseCmd(GetCmd(key)).1;
            var reply := FinishGet(kv, kv.order[k], GetCmd(key));
            && (asked == key <==> !Contains(key, OP_SEPARATOR))
            && (reply.err == OK <==> asked in before)
            && (asked in before ==>
                  && reply.value == Head(before[asked], KEY_VALUE_SEPARATOR)
                  && (reply.value == before[asked] <==> !Contains(before[asked], KEY_VALUE_SEPARATOR)))
  {
    var cmd := GetCmd(key);
    var before := Replay(CommandsAt(kv.log, kv.order[..k]));
    GetCmdRoundTrip(key);
    assert CellOk(kv, k);
    var asked := ParseCmd(cmd).1;
    if asked in before {
      SplitAtFirst(cmd, before[asked]);
    }
  }

  lemma TextOfGet(cmd: string, key: string)
    requires GetCmd(key) <= cmd
    ensures ParseCmd(cmd).0 == GET
  {
    var rest := cmd[|GetCmd(key)|..];
    assert cmd == GET + OP_SEPARATOR + (key + rest);
    ParseFindsOp(GET, key + rest);
  }

  /** A cell text whose first part is a Get was left by a Get of the same words. */
  lemma CellTextOfGet(db: map<string, string>, cmd: string, r: Outcome, key: string)
    requires if Answers(cmd) then Answer(db, cmd) == Some(r) else r == Outcome(cmd, true)
    requires SplitPutAppendCmd(r.val).0 == GetCmd(key)
    ensures ParseCmd(cmd).0 == GET && (cmd == GetCmd(key) || GetCmd(key) + KEY_VALUE_SEPARATOR <= cmd)
  {
    SplitKeyIsPrefix(r.val, GetCmd(key));
    if r.val == cmd {
      assert GetCmd(key) + KEY_VALUE_SEPARATOR <= cmd;
      TextOfGet(cmd, key);
    } else {
      FirstSeparatorSplits(cmd, r.val[|cmd| + 4..], GetCmd(key));
    }
  }

  /** An OK read at an index is answered by a Get logged there: its own, or one whose text goes on
      with "<<>>" after the same words. */
  lemma OkReadComesFromGet(kv: Kv, k: nat, key: string)
    requires KvInv(kv) && k < |kv.order| && CellAt(kv.ops, kv.order[k]).Some?
    requires FinishGet(kv, kv.order[k], GetCmd(key)).err == OK
    ensures var cmd := kv.log[kv.order[k]];
      ParseCmd(cmd).0 == GET && (cmd == GetCmd(key) || GetCmd(key) + KEY_VALUE_SEPARATOR <= cmd)
  {
    assert CellOk(kv, k);
    CellTextOfGet(Replay(CommandsAt(kv.log, kv.order[..k])), kv.log[kv.order[k]], kv.ops[kv.order[k]].value, key);
  }

  // ---------------------------------------------------------------- reads, exactly

  /** What a read of a key brings back. */
  datatype Found = Found(value: string) | Missing

  /** What the replay says to a read of key that waits on the index delivered k-th. */
  ghost function Looked(kv: Kv, k: nat, key: string): Found
    requires KvInv(kv) && k < |kv.order|
  {
    var before := Replay(CommandsAt(kv.log, kv.order[..k]));
    if kv.log[kv.order[k]] == GetCmd(key) && key in before then Found(Head(before[key], KEY_VALUE_SEPARATOR))
    else Missing
  }

  /** No key of a database contains "<<>>". */
  lemma {:induction false} StoredKeysAreWhole(cmds: seq<string>)
    ensures forall key :: key in Replay(cmds) ==> !Contains(key, KEY_VALUE_SEPARATOR)
    decreases |cmds|
  {
    if cmds == [] {
    } else {
      StoredKeysAreWhole(cmds[..|cmds| - 1]);
      SplitThenJoin(ParseCmd(cmds[|cmds| - 1]).1, KEY_VALUE_SEPARATOR);
    }
  }

  /** A Get whose words go on with "<<>>" after a key without ":::" asks for a key that contains
      "<<>>". */
  lemma LongerGetAsksForBrokenKey(cmd: string, key: string)
    requires GetCmd(key) + KEY_VALUE_SEPARATOR <= cmd && !Contains(key, OP_SEPARATOR)
    ensures Contains(ParseCmd(cmd).1, KEY_VALUE_SEPARATOR)
  {
    var tail := cmd[|GetCmd(key)| + 4..];
    var text := key + KEY_VALUE_SEPARATOR + tail;
    assert cmd == GET + OP_SEPARATOR + text;
    ParseFindsOp(GET, text);
    var r := Find(text, OP_SEPARATOR);
    if r.Some? && r.value < |key| + 4 {
      if r.value + 3 <= |key| {
        assert text == key + (KEY_VALUE_SEPARATOR + tail);
        OccurrenceInFront(key, KEY_VALUE_SEPARATOR + tail, OP_SEPARATOR, r.value);
      } else {
        NoOpSeparatorAcross(key, tail, r.value);
      }
    }
    assert ParseCmd(cmd).1[|key|..|key| + 4] == KEY_VALUE_SEPARATOR;
    assert At(ParseCmd(cmd).1, KEY_VALUE_SEPARATOR, |key|);
  }

  /** Only the waiting read's own words, with its key bound, leave its words in front of the cell. */
  lemma OkReadIsOwn(kv: Kv, k: nat, key: string)
    requires KvInv(kv) && k < |kv.order| && CellAt(kv.ops, kv.order[k]).Some?
    requires !Contains(key, OP_SEPARATOR)
    requires FinishGet(kv, kv.order[k], GetCmd(key)).err == OK
    ensures kv.log[kv.order[k]] == GetCmd(key) && key in Replay(CommandsAt(kv.log, kv.order[..k]))
  {
    var cmd := kv.log[kv.order[k]];
    var before := Replay(CommandsAt(kv.log, kv.order[..k]));
    OkReadComesFromGet(kv, k, key);
    assert CellOk(kv, k);
    if ParseCmd(cmd).1 in before {
      StoredKeysAreWhole(CommandsAt(kv.log, kv.order[..k]));
      if cmd == GetCmd(key) {
        GetCmdRoundTrip(key);
      } else {
        LongerGetAsksForBrokenKey(cmd, key);
      }
    }
  }

  /** The keys a read is answered for as the replay says: the server asks for the key itself, or
      never recognises an answer. */
  ghost predicate ReadableKey(key: string) {
    !Contains(key, OP_SEPARATOR) || Contains(key, KEY_VALUE_SEPARATOR)
  }

  /** The read that waits on the index delivered k-th is answered as the replay says. */
  ghost predicate ReadIsExact(kv: Kv, k: nat, key: string)
    requires KvInv(kv) && k < |kv.order| && CellAt(kv.ops, kv.order[k]).Some?
  {
    FinishGet(kv, kv.order[k], GetCmd(key)) ==
    match Looked(kv, k, key)
    case Found(value) => GetReply(false, OK, value)
    case Missing => GetReply(false, ErrNoKey, "")
  }

  /** A key with "<<>>" is never found: no cell's first part is its Get, and no such key is stored. */
  lemma BrokenKeyIsMissing(kv: Kv, k: nat, key: string)
    requires KvInv(kv) && k < |kv.order| && CellAt(kv.ops, kv.order[k]).Some?
    requires Contains(key, KEY_VALUE_SEPARATOR)
    ensures FinishGet(kv, kv.order[k], GetCmd(key)).err == ErrNoKey && Looked(kv, k, key) == Missing
  {
    StoredKeysAreWhole(CommandsAt(kv.log, kv.order[..k]));
    SplitThenJoin(kv.ops[kv.order[k]].value.val, KEY_VALUE_SEPARATOR);
    var i :| At(key, KEY_VALUE_SEPARATOR, i);
    assert GetCmd(key)[i + 6..i + 10] == key[i..i + 4];
    assert At(GetCmd(key), KEY_VALUE_SEPARATOR, i + 6);
    assert !Contains("", KEY_VALUE_SEPARATOR);
  }

  /** Whenever the cell a read waits on is full, the reply is what the replay before its index
      says: OK with the bound value if the index carries the read's own words and the key was
      bound, and ErrNoKey otherwise. */
  lemma ReadsAreExact(kv: Kv, k: nat, key: string)
    requires KvInv(kv) && k < |kv.order| && CellAt(kv.ops, kv.order[k]).Some?
    requires ReadableKey(key)
    ensures ReadIsExact(kv, k, key)
  {
    if Contains(key, KEY_VALUE_SEPARATOR) {
      BrokenKeyIsMissing(kv, k, key);
    } else {
      if FinishGet(kv, kv.order[k], GetCmd(key)).err == OK {
        OkReadIsOwn(kv, k, key);
      }
      if Looked(kv, k, key).Found? {
        GetHasSeparatorOfKey(key);
        GetCmdRoundTrip(key);
        ReadsArePointInTime(kv, k, key);
      }
    }
  }

  /** A write, a Get that is told index 2 and waits there, and the command that index 2 carries. */
  function WriteThenWait(write: string, cmd: string): seq<KvEvent> {
    [Deliver(ApplyMsg(1, Op("writer", write))),
     GetCall("reader", RaftAnswers(true, true, Some(2))),
     Deliver(ApplyMsg(2, Op("second", cmd)))]
  }

  lemma RunOfThree(kv: Kv, a: KvEvent, b: KvEvent, c: KvEvent)
    ensures KvRun(kv, [a, b, c]) == KvAfter(KvAfter(KvAfter(kv, a), b), c)
  {
    assert [a, b, c][1..] == [b, c] && [b, c][1..] == [c];
    assert KvRun(KvAfter(KvAfter(kv, a), b), [c]) == KvAfter(KvAfter(KvAfter(kv, a), b), c);
  }

  lemma AfterWriteThenWait(write: string, cmd: string)
    ensures var kv := KvRun(EMPTY_KV, WriteThenWait(write, cmd));
      && KvInv(kv) && kv.order == [1, 2] && kv.log == map[1 := write, 2 := cmd]
      && Replay(CommandsAt(kv.log, kv.order[..1])) == Execute(map[], write)
  {
    var events := WriteThenWait(write, cmd);
    RunKeepsInv(EMPTY_KV, events);
    RunOfThree(EMPTY_KV, events[0], events[1], events[2]);
    var first := KvAfter(EMPTY_KV, events[0]);
    assert first.order == [1] && first.log == map[1 := write];
    assert KvAfter(first, events[1]).order == first.order && KvAfter(first, events[1]).log == first.log;
    var kv := KvRun(EMPTY_KV, events);
    assert kv.order == [1] + [2] && kv.log == map[1 := write, 2 := cmd];
    assert kv.order[..1] == [1];
    CommandsOfOne(kv.log, 1);
  }

  lemma CommandsOfOne(log: map<int, string>, idx: int)
    requires idx in log
    ensures Replay(CommandsAt(log, [idx])) == Execute(map[], log[idx])
  {
    assert CommandsAt(log, [idx])[..0] == [];
  }

  lemma ExecutedWrite(db: map<string, string>, key: string, value: string)
    requires !Contains(key, OP_SEPARATOR) && !Contains(key, KEY_VALUE_SEPARATOR)
    requires !Contains(value, OP_SEPARATOR) && !Contains(value, KEY_VALUE_SEPARATOR)
    ensures Execute(db, PutAppendCmd(PUT, key, value)) == db[key := value]
  {
    CommandRoundTrip(PUT, key, value);
    var rest := key + KEY_VALUE_SEPARATOR + value;
    assert PutAppendCmd(PUT, key, value) == PUT + OP_SEPARATOR + rest;
    ParseFindsOp(PUT, rest);
  }

  lemma AppendIsAnswered(other: string, key: string)
    ensures Answers(PutAppendCmd(APPEND, other, "")) && PutAppendCmd(APPEND, other, "") != GetCmd(key)
  {
    var rest := other + KEY_VALUE_SEPARATOR + "";
    var cmd := PutAppendCmd(APPEND, other, "");
    assert cmd == APPEND + OP_SEPARATOR + rest;
    ParseFindsOp(APPEND, rest);
    assert cmd[0] == 'A' && GetCmd(key)[0] == 'G';
  }

  /** Reading a key that contains ":::" returns the value of the part before it: here that part
      was written, the key was not, and the read is answered OK. */
  lemma BrokenKeyReadsItsHead(key: string, value: string)
    requires Contains(key, OP_SEPARATOR) && !Contains(key, KEY_VALUE_SEPARATOR)
    requires !Contains(value, OP_SEPARATOR) && !Contains(value, KEY_VALUE_SEPARATOR)
    ensures var kv := KvRun(EMPTY_KV, WriteThenWait(PutAppendCmd(PUT, Head(key, OP_SEPARATOR), value), GetCmd(key)));
      && KvInv(kv) && |kv.order| == 2 && CellAt(kv.ops, kv.order[1]).Some?
      && FinishGet(kv, kv.order[1], GetCmd(key)) == GetReply(false, OK, value)
      && Looked(kv, 1, key) == Missing
  {
    var head := Head(key, OP_SEPARATOR);
    var write := PutAppendCmd(PUT, head, value);
    var kv := KvRun(EMPTY_KV, WriteThenWait(write, GetCmd(key)));
    AfterWriteThenWait(write, GetCmd(key));
    HeadHasNoSeparator(key);
    ExecutedWrite(map[], head, value);
    ParseFindsOp(GET, key);
    GetHasSeparatorOfKey(key);
    ReadsArePointInTime(kv, 1, key);
  }

  lemma HeadHasNoSeparator(key: string)
    ensures !Contains(Head(key, OP_SEPARATOR), OP_SEPARATOR)
    ensures !Contains(key, KEY_VALUE_SEPARATOR) ==> !Contains(Head(key, OP_SEPARATOR), KEY_VALUE_SEPARATOR)
  {
    var head := Head(key, OP_SEPARATOR);
    SplitThenJoin(key, OP_SEPARATOR);
    assert head == Split(key, OP_SEPARATOR)[0];
    assert key == head + key[|head|..];
    forall i | At(head, KEY_VALUE_SEPARATOR, i)
      ensures At(key, KEY_VALUE_SEPARATOR, i)
    {
      OccurrenceInFront(head, key[|head|..], KEY_VALUE_SEPARATOR, i);
    }
  }

  /** Which keys can be read: in every state of a server the reply to a read of the key is what
      the replay says, if and only if the key has no ":::" or has a "<<>>". */
  lemma ReadsAreExactIffReadable(key: string)
    ensures (forall kv, k: nat | KvInv(kv) && k < |kv.order| && CellAt(kv.ops, kv.order[k]).Some? ::
               ReadIsExact(kv, k, key))
            <==> ReadableKey(key)
  {
    if ReadableKey(key) {
      forall kv, k: nat | KvInv(kv) && k < |kv.order| && CellAt(kv.ops, kv.order[k]).Some?
        ensures ReadIsExact(kv, k, key)
      {
        ReadsAreExact(kv, k, key);
      }
    } else {
      BrokenKeyReadsItsHead(key, "");
      var kv := KvRun(EMPTY_KV, WriteThenWait(PutAppendCmd(PUT, Head(key, OP_SEPARATOR), ""), GetCmd(key)));
      assert !ReadIsExact(kv, 1, key);
    }
  }

  /** A read whose index ends up carrying another client's command is answered ErrNoKey, however
      its key is bound. */
  lemma BoundKeyCanBeMissed(key: string, value: string, other: string)
    requires !Contains(key, OP_SEPARATOR) && !Contains(key, KEY_VALUE_SEPARATOR)
    requires !Contains(value, OP_SEPARATOR) && !Contains(value, KEY_VALUE_SEPARATOR)
    ensures var kv := KvRun(EMPTY_KV, WriteThenWait(PutAppendCmd(PUT, key, value), PutAppendCmd(APPEND, other, "")));
      && KvInv(kv) && |kv.order| == 2 && CellAt(kv.ops, kv.order[1]).Some?
      && Replay(CommandsAt(kv.log, kv.order[..1])) == map[key := value]
      && FinishGet(kv, kv.order[1], GetCmd(key)) == GetReply(false, ErrNoKey, "")
  {
    var write, cmd := PutAppendCmd(PUT, key, value), PutAppendCmd(APPEND, other, "");
    var kv := KvRun(EMPTY_KV, WriteThenWait(write, cmd));
    AfterWriteThenWait(write, cmd);
    ExecutedWrite(map[], key, value);
    AppendIsAnswered(other, key);
    assert CellOk(kv, 1);
    AnswersDependsOnCommand(Replay(CommandsAt(kv.log, kv.order[..1])), cmd);
    ReadsAreExact(kv, 1, key);
  }

  lemma GetHasSeparatorOfKey(key: string)
    requires !Contains(key, KEY_VALUE_SEPARATOR)
    ensures !Contains(GetCmd(key), KEY_VALUE_SEPARATOR)
  {
    forall i
      ensures !At(GetCmd(key), KEY_VALUE_SEPARATOR, i)
    {
      if 0 <= i < 6 && i + 4 <= |GetCmd(key)| {
        assert GetCmd(key)[i..i + 4][0] == (GET + OP_SEPARATOR)[i];
      } else if 6 <= i && i + 4 <= |GetCmd(key)| {
        assert GetCmd(key)[i..i + 4] == key[i - 6..i - 2];
        assert !At(key, KEY_VALUE_SEPARATOR, i - 6);
      }
    }
  }

  /** Two writes and a read, delivered one after the other. */
  function WriteTwiceThenRead(key: string, first: string, second: string): seq<KvEvent> {
    [Deliver(ApplyMsg(1, Op("writer", PutAppendCmd(APPEND, key, first)))),
     Deliver(ApplyMsg(2, Op("writer", PutAppendCmd(APPEND, key, second)))),
     Deliver(ApplyMsg(3, Op("reader", GetCmd(key))))]
  }

  lemma ExecutedAppend(db: map<string, string>, key: string, value: string)
    requires !Contains(key, OP_SEPARATOR) && !Contains(key, KEY_VALUE_SEPARATOR)
    requires !Contains(value, OP_SEPARATOR) && !Contains(value, KEY_VALUE_SEPARATOR)
    ensures Execute(db, PutAppendCmd(APPEND, key, value)) == db[key := Stored(db, key) + value]
  {
    CommandRoundTrip(APPEND, key, value);
    var rest := key + KEY_VALUE_SEPARATOR + value;
    assert PutAppendCmd(APPEND, key, value) == APPEND + OP_SEPARATOR + rest;
    ParseFindsOp(APPEND, rest);
  }

  lemma LogAfterDelivery(kv: Kv, idx: int, contextId: string, cmd: string)
    requires idx !in kv.log
    ensures var next := KvAfter(kv, Deliver(ApplyMsg(idx, Op(contextId, cmd))));
      next.order == kv.order + [idx] && next.log == kv.log[idx := cmd]
  {
  }

  lemma AfterThreeDeliveries(a: string, b: string, c: string, x: string, y: string)
    ensures var events :=
        [Deliver(ApplyMsg(1, Op(x, a))), Deliver(ApplyMsg(2, Op(x, b))), Deliver(ApplyMsg(3, Op(y, c)))];
      var kv := KvRun(EMPTY_KV, events);
      && KvInv(kv) && kv.order == [1, 2, 3] && kv.log == map[1 := a, 2 := b, 3 := c]
      && Replay(CommandsAt(kv.log, kv.order[..2])) == Execute(Execute(map[], a), b)
  {
    var events := [Deliver(ApplyMsg(1, Op(x, a))), Deliver(ApplyMsg(2, Op(x, b))), Deliver(ApplyMsg(3, Op(y, c)))];
    RunKeepsInv(EMPTY_KV, events);
    RunOfThree(EMPTY_KV, events[0], events[1], events[2]);
    LogAfterDelivery(EMPTY_KV, 1, x, a);
    var first := KvAfter(EMPTY_KV, events[0]);
    LogAfterDelivery(first, 2, x, b);
    var second := KvAfter(first, events[1]);
    LogAfterDelivery(second, 3, y, c);
    var kv := KvAfter(second, events[2]);
    assert kv.order == [] + [1] + [2] + [3] && kv.order[..2] == [1, 2];
    assert kv.log == map[1 := a, 2 := b, 3 := c];
    CommandsOfTwo(kv.log, 1, 2);
  }

  lemma CommandsOfTwo(log: map<int, string>, i: int, j: int)
    requires i in log && j in log
    ensures Replay(CommandsAt(log, [i, j])) == Execute(Execute(map[], log[i]), log[j])
  {
    CommandsOfOne(log, i);
    assert CommandsAt(log, [i, j])[..1] == CommandsAt(log, [i]);
  }

  /** Two values without "<<>>" can be appended to one that has it, and the read then returns only
      what comes before it. */
  lemma AppendedSeparatorCutsRead(key: string)
    requires !Contains(key, OP_SEPARATOR) && !Contains(key, KEY_VALUE_SEPARATOR)
    ensures var kv := KvRun(EMPTY_KV, WriteTwiceThenRead(key, "<<", ">>"));
      && KvInv(kv) && kv.order == [1, 2, 3] && CellAt(kv.ops, 3).Some?
      && Replay(CommandsAt(kv.log, kv.order[..2])) == map[key := "<<>>"]
      && FinishGet(kv, 3, GetCmd(key)) == GetReply(false, OK, "")
  {
    var write, more := PutAppendCmd(APPEND, key, "<<"), PutAppendCmd(APPEND, key, ">>");
    AfterThreeDeliveries(write, more, GetCmd(key), "writer", "reader");
    TwoAppendsMakeSeparator(key);
    GetCmdRoundTrip(key);
    GetHasSeparatorOfKey(key);
    HeadOfSeparator();
    ReadsArePointInTime(KvRun(EMPTY_KV, WriteTwiceThenRead(key, "<<", ">>")), 2, key);
  }

  lemma HeadOfSeparator()
    ensures Head("<<>>", KEY_VALUE_SEPARATOR) == ""
  {
    assert At("<<>>", KEY_VALUE_SEPARATOR, 0);
  }

  lemma NoSeparatorInHalf(half: string)
    requires |half| == 2
    ensures !Contains(half, KEY_VALUE_SEPARATOR) && !Contains(half, OP_SEPARATOR)
  {
  }

  lemma TwoAppendsMakeSeparator(key: string)
    requires !Contains(key, OP_SEPARATOR) && !Contains(key, KEY_VALUE_SEPARATOR)
    ensures Execute(Execute(map[], PutAppendCmd(APPEND, key, "<<")), PutAppendCmd(APPEND, key, ">>")) ==
            map[key := "<<>>"]
  {
    NoSeparatorInHalf("<<");
    NoSeparatorInHalf(">>");
    ExecutedAppend(map[], key, "<<");
    assert "" + "<<" == "<<" && "<<" + ">>" == "<<>>";
    ExecutedAppend(map[key := "<<"], key, ">>");
  }

  /** A key with ":::" can also be answered with text that was never stored: at an index that
      carries a Get of a longer key the read is answered with the rest of that key's text. */
  lemma ReadOfBrokenKeyTakesText(kv: Kv, k: nat, key: string, tail: string)
    requires KvInv(kv) && k < |kv.order|
    requires kv.log[kv.order[k]] == GetCmd(key + KEY_VALUE_SEPARATOR + tail)
    requires Contains(key, OP_SEPARATOR) && !Contains(key, KEY_VALUE_SEPARATOR)
    requires Head(key, OP_SEPARATOR) in Replay(CommandsAt(kv.log, kv.order[..k]))
    ensures CellAt(kv.ops, kv.order[k]).Some?
    ensures FinishGet(kv, kv.order[k], GetCmd(key)) == GetReply(false, OK, Head(tail, KEY_VALUE_SEPARATOR))
    ensures Looked(kv, k, key) == Missing
  {
    assert CellOk(kv, k);
    LongerGetAsksForHead(key, tail);
    SplitOfLongerGet(key, tail, Replay(CommandsAt(kv.log, kv.order[..k]))[Head(key, OP_SEPARATOR)]);
  }

  lemma Regrouped(a: string, b: string, c: string, d: string)
    ensures a + (b + c + d) == (a + b) + c + d
  {
  }

  lemma HeadOfLongerKey(key: string, tail: string)
    requires Contains(key, OP_SEPARATOR)
    ensures Head(key + KEY_VALUE_SEPARATOR + tail, OP_SEPARATOR) == Head(key, OP_SEPARATOR)
  {
    HeadOfLonger(key, OP_SEPARATOR, KEY_VALUE_SEPARATOR + tail);
    assert key + KEY_VALUE_SEPARATOR + tail == key + (KEY_VALUE_SEPARATOR + tail);
  }

  lemma LongerGetAsksForHead(key: string, tail: string)
    requires Contains(key, OP_SEPARATOR)
    ensures ParseCmd(GetCmd(key + KEY_VALUE_SEPARATOR + tail)) == (GET, Head(key, OP_SEPARATOR))
    ensures |GetCmd(key + KEY_VALUE_SEPARATOR + tail)| > |GetCmd(key)|
  {
    ParseFindsOp(GET, key + KEY_VALUE_SEPARATOR + tail);
    HeadOfLongerKey(key, tail);
  }

  lemma SplitAtFirst(a: string, rest: string)
    requires !Contains(a, KEY_VALUE_SEPARATOR)
    ensures SplitPutAppendCmd(a + KEY_VALUE_SEPARATOR + rest) == (a, Head(rest, KEY_VALUE_SEPARATOR))
  {
    forall i | i < |a|
      ensures !At(a + KEY_VALUE_SEPARATOR + rest, KEY_VALUE_SEPARATOR, i)
    {
      KeyValueSeparatorStartsAfter(a, rest, i);
    }
    SplitAfter(a, KEY_VALUE_SEPARATOR, rest);
  }

  lemma SplitOfLongerGet(key: string, tail: string, v: string)
    requires !Contains(key, KEY_VALUE_SEPARATOR)
    ensures SplitPutAppendCmd(GetCmd(key + KEY_VALUE_SEPARATOR + tail) + KEY_VALUE_SEPARATOR + v) ==
            (GetCmd(key), Head(tail, KEY_VALUE_SEPARATOR))
  {
    GetHasSeparatorOfKey(key);
    SplitAtFirst(GetCmd(key), tail + KEY_VALUE_SEPARATOR + v);
    HeadBeforeSeparator(tail, v);
    Regrouped(GET + OP_SEPARATOR, key, KEY_VALUE_SEPARATOR, tail);
    Regrouped(GetCmd(key) + KEY_VALUE_SEPARATOR, tail, KEY_VALUE_SEPARATOR, v);
    assert GetCmd(key) + KEY_VALUE_SEPARATOR + (tail + KEY_VALUE_SEPARATOR + v) ==
           GetCmd(key) + KEY_VALUE_SEPARATOR + tail + KEY_VALUE_SEPARATOR + v;
  }

  /** Text after the first separator does not matter to the head. */
  lemma HeadOfLonger(a: string, sep: string, rest: string)
    requires sep != "" && Contains(a, sep)
    ensures Head(a + rest, sep) == Head(a, sep)
  {
    var i :| At(a, sep, i);
    var k := Find(a, sep).value;
    forall j | j <= k
      ensures At(a + rest, sep, j) <==> At(a, sep, j)
    {
      OccurrenceInFront(a, rest, sep, j);
    }
    assert At(a + rest, sep, k);
    assert Find(a + rest, sep).Some?;
    assert Find(a + rest, sep).value == k;
    assert (a + rest)[..k] == a[..k];
  }

  lemma HeadBeforeSeparator(a: string, v: string)
    ensures Head(a + KEY_VALUE_SEPARATOR + v, KEY_VALUE_SEPARATOR) == Head(a, KEY_VALUE_SEPARATOR)
  {
    if Contains(a, KEY_VALUE_SEPARATOR) {
      HeadOfLonger(a, KEY_VALUE_SEPARATOR, KEY_VALUE_SEPARATOR + v);
      assert a + KEY_VALUE_SEPARATOR + v == a + (KEY_VALUE_SEPARATOR + v);
    } else {
      SplitAtFirst(a, v);
    }
  }

  /** A non-empty first part is followed by the separator, which starts nowhere earlier. */
  lemma SplitKeyIsPrefix(s: string, key: string)
    requires SplitPutAppendCmd(s).0 == key && key != ""
    ensures key + KEY_VALUE_SEPARATOR <= s && forall i :: i < |key| ==> !At(s, KEY_VALUE_SEPARATOR, i)
  {
    var k := Find(s, KEY_VALUE_SEPARATOR).value;
    assert At(s, KEY_VALUE_SEPARATOR, k) && s[..k] == key;
    assert s == s[..k] + s[k..k + 4] + s[k + 4..];
  }

  lemma FirstSeparatorSplits(cmd: string, v: string, key: string)
    requires SplitPutAppendCmd(cmd + KEY_VALUE_SEPARATOR + v).0 == key && key != ""
    ensures cmd == key || key + KEY_VALUE_SEPARATOR <= cmd
  {
    var s := cmd + KEY_VALUE_SEPARATOR + v;
    SplitKeyIsPrefix(s, key);
    if !Contains(cmd, KEY_VALUE_SEPARATOR) {
      SplitAtFirst(cmd, v);
    } else {
      var i :| At(cmd, KEY_VALUE_SEPARATOR, i);
      assert s == cmd + (KEY_VALUE_SEPARATOR + v);
      OccurrenceInFront(cmd, KEY_VALUE_SEPARATOR + v, KEY_VALUE_SEPARATOR, i);
      assert |key| <= i;
    }
  }

  // ---------------------------------------------------------------- acknowledged writes

  /** A write is found in its cell only if exactly that command was applied at the index. */
  lemma FullCellNamesAppliedWrite(kv: Kv, idx: int, op: string, key: string, value: string)
    requires KvInv(kv) && (op == PUT || op == APPEND)
    requires CellAt(kv.ops, idx) == Some(Outcome(PutAppendCmd(op, key, value), true))
    ensures idx in kv.log && kv.log[idx] == PutAppendCmd(op, key, value)
  {
    var k :| 0 <= k < |kv.order| && kv.order[k] == idx;
    assert CellOk(kv, k);
    var cmd := PutAppendCmd(op, key, value);
    if ParseCmd(kv.log[idx]).0 == GET {
      GetTextStartsWithGet(kv.log[idx]);
      assert cmd[0] == op[0] != 'G';
    }
  }

  /** The second phase of a write answers OK if and only if exactly that command was applied at the
      index it names. */
  lemma WritesAreExact(kv: Kv, contextId: string, idx: int, op: string, key: string, value: string)
    requires KvInv(kv) && (op == PUT || op == APPEND) && CellAt(kv.ops, idx).Some?
    ensures var cmd := PutAppendCmd(op, key, value);
      FinishPutAppend(kv, PutAppendArgs(contextId, cmd, idx)) ==
      PutAppendReply(false, if idx in kv.log && kv.log[idx] == cmd then OK else ErrNoKey, 0)
  {
    var cmd := PutAppendCmd(op, key, value);
    if CellAt(kv.ops, idx) == Some(Outcome(cmd, true)) {
      FullCellNamesAppliedWrite(kv, idx, op, key, value);
    } else if idx in kv.log && kv.log[idx] == cmd {
      WriteFillsItsCell(kv, idx, op, key, value);
    }
  }

  /** A write that was applied is in its cell. */
  lemma WriteFillsItsCell(kv: Kv, idx: int, op: string, key: string, value: string)
    requires KvInv(kv) && (op == PUT || op == APPEND)
    requires idx in kv.log && kv.log[idx] == PutAppendCmd(op, key, value)
    ensures CellAt(kv.ops, idx) == Some(Outcome(PutAppendCmd(op, key, value), true))
  {
    var k :| 0 <= k < |kv.order| && kv.order[k] == idx;
    assert CellOk(kv, k);
    var rest := key + KEY_VALUE_SEPARATOR + value;
    assert PutAppendCmd(op, key, value) == op + OP_SEPARATOR + rest;
    ParseFindsOp(op, rest);
  }

  /** The first phase: the call that is agreed on records its index, and the next call with the
      same context, whenever no other step changed it, learns that index. */
  lemma SecondCallLearnsIndex(kv: Kv, contextId: string, cmd: string, raft: RaftAnswers, again: RaftAnswers)
    requires contextId !in kv.context && raft.stateOk && raft.isLeader && raft.agreed.Some?
    requires again.stateOk && again.isLeader
    ensures var args := PutAppendArgs(contextId, cmd, 0);
      var (next, reply) := BeginPutAppend(kv, args, raft);
      && reply == Some(PutAppendReply(false, OK, 0))
      && next.log == kv.log && next.db == kv.db && next.ops == kv.ops
      && BeginPutAppend(next, args, again) == (next, Some(PutAppendReply(false, OK, raft.agreed.value)))
  {
  }

  lemma GetTextStartsWithGet(cmd: string)
    requires ParseCmd(cmd).0 == GET
    ensures cmd != "" && cmd[0] == 'G'
  {
    var k := Find(cmd, OP_SEPARATOR).value;
    assert cmd[..k] == GET;
    assert cmd[..k][0] == cmd[0];
  }
}
