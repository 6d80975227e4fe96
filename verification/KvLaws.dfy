/** What the key/value handlers and the apply loop leave for one another: contexts, cells, and what
    a command does to the database. */
module KvLaws {
  import opened RaftTypes
  import opened Commands
  import opened KvServer
  import opened KvReplay

  // ---------------------------------------------------------------- the apply loop

  /** A first delivery is logged, executed, and known by its context from then on; its answer is in
      a cell that was empty. Nothing else changes. */
  lemma FirstDeliveryRecords(kv: Kv, idx: int, contextId: string, cmd: string)
    requires idx !in kv.log
    ensures var next := OnApply(kv, ApplyMsg(idx, Op(contextId, cmd)));
      && next.log == kv.log[idx := cmd] && next.order == kv.order + [idx]
      && next.context == kv.context[contextId := idx]
      && next.db == Execute(kv.db, cmd)
      && (forall i :: i != idx ==> CellAt(next.ops, i) == CellAt(kv.ops, i))
      && (CellAt(kv.ops, idx).None? ==> CellAt(next.ops, idx) == Answer(kv.db, cmd))
      && (CellAt(kv.ops, idx).Some? ==> CellAt(next.ops, idx) == CellAt(kv.ops, idx))
  {
  }

  /** What a first delivery leaves in its cell: a write, its own text; a read, its text and the value
      of its key, or nothing if the key is unbound; anything else leaves the cell empty. */
  lemma AnswersByOperation(db: map<string, string>, op: string, text: string)
    requires IsOp(op)
    ensures var cmd, asked := op + ":::" + text, Head(text, ":::");
      Answer(db, cmd) ==
        if op != "Get" then Some(Outcome(cmd, true))
        else if asked in db then Some(Outcome(cmd + "<<>>" + db[asked], true))
        else Some(Outcome("", false))
    ensures forall cmd :: ParseCmd(cmd).0 !in {"Put", "Append", "Get"} ==> Answer(db, cmd) == None
  {
    ParseFindsOp(op, text);
  }

  /** A redelivery answers whoever waits on an empty cell with the logged command, and changes
      nothing else; what is not an operation changes nothing. */
  lemma RedeliveryAnswersWaiters(kv: Kv, msg: ApplyMsg)
    ensures !msg.command.Op? ==> OnApply(kv, msg) == kv
    ensures msg.command.Op? && msg.index in kv.log ==>
      var next := OnApply(kv, msg);
      && next == kv.(ops := next.ops) && next.ops.Keys == kv.ops.Keys
      && (forall i :: i in kv.ops && i != msg.index ==> next.ops[i] == kv.ops[i])
      && (msg.index in kv.ops && kv.ops[msg.index].None? ==>
            next.ops[msg.index] == Some(Outcome(kv.log[msg.index], true)))
      && (msg.index in kv.ops && kv.ops[msg.index].Some? ==> next.ops[msg.index] == kv.ops[msg.index])
  {
  }

  /** Reads, and text that is no operation, leave the database alone. */
  lemma OnlyWritesWrite(db: map<string, string>, cmd: string)
    requires ParseCmd(cmd).0 != PUT && ParseCmd(cmd).0 != APPEND
    ensures Execute(db, cmd) == db
  {
  }

  /** Without a separator between key and value the write goes to the empty key: it stores nothing
      there, and appends nothing to it. */
  lemma WriteWithoutSeparator(db: map<string, string>, op: string, text: string)
    requires (op == PUT || op == APPEND)
    requires !Contains(Head(text, OP_SEPARATOR), KEY_VALUE_SEPARATOR)
    ensures Execute(db, op + OP_SEPARATOR + text) ==
            db["" := if op == PUT then "" else Stored(db, "")]
  {
    ParseFindsOp(op, text);
    UnseparatedYieldsNothing(Head(text, OP_SEPARATOR));
    assert Stored(db, "") + "" == Stored(db, "");
  }

  // ---------------------------------------------------------------- the handlers

  /** The Raft server could not be asked or does not lead. */
  predicate NotLeading(raft: RaftAnswers) {
    !raft.stateOk || !raft.isLeader
  }

  /** Whoever does not lead says so at once and changes nothing. */
  lemma OthersNameWrongLeader(kv: Kv, args: PutAppendArgs, contextId: string, raft: RaftAnswers)
    requires NotLeading(raft)
    ensures BeginPutAppend(kv, args, raft) == (kv, Some(PutAppendReply(true, NoErr, 0)))
    ensures BeginGet(kv, contextId, raft).0 == kv
    ensures BeginGet(kv, contextId, raft).1 == Some(GetReply(true, NoErr, ""))
  {
  }

  /** When the command could not be handed to Raft, a leader's answer is empty and nothing changes;
      a write whose context is known is not handed to it again. */
  lemma NothingAgreedChangesNothing(kv: Kv, args: PutAppendArgs, contextId: string, raft: RaftAnswers)
    requires !NotLeading(raft) && raft.agreed.None? && args.idx == 0
    ensures args.contextId !in kv.context ==>
      BeginPutAppend(kv, args, raft) == (kv, Some(PutAppendReply(false, NoErr, 0)))
    ensures args.contextId in kv.context ==>
      BeginPutAppend(kv, args, raft) == (kv, Some(PutAppendReply(false, OK, kv.context[args.contextId])))
    ensures BeginGet(kv, contextId, raft).0 == kv
    ensures BeginGet(kv, contextId, raft).1 == Some(GetReply(false, NoErr, ""))
  {
  }

  /** A handler that waits has a cell to wait on, which what is delivered later fills, and which is
      empty unless it held something before. */
  lemma WaitersHaveCells(kv: Kv, args: PutAppendArgs, contextId: string, raft: RaftAnswers)
    requires !NotLeading(raft) && args.idx != 0 && raft.agreed.Some?
    ensures var (next, reply) := BeginPutAppend(kv, args, raft);
      && reply == None && args.idx in next.ops && next == kv.(ops := next.ops)
      && forall i :: CellAt(next.ops, i) == CellAt(kv.ops, i)
    ensures var (next, reply, idx) := BeginGet(kv, contextId, raft);
      && reply == None && idx == raft.agreed.value && idx in next.ops
      && next == kv.(ops := next.ops, context := kv.context[contextId := idx])
      && forall i :: CellAt(next.ops, i) == CellAt(kv.ops, i)
  {
  }

  /** A write in its second phase that waits when its command is delivered is answered OK. */
  lemma WaitingWriteIsAnswered(
    kv: Kv, contextId: string, op: string, key: string, value: string, idx: int, raft: RaftAnswers)
    requires KvInv(kv) && (op == PUT || op == APPEND) && idx != 0 && idx !in kv.log && !NotLeading(raft)
    ensures var args := PutAppendArgs(contextId, PutAppendCmd(op, key, value), idx);
      var waiting := BeginPutAppend(kv, args, raft).0;
      var delivered := OnApply(waiting, ApplyMsg(idx, Op(contextId, args.cmd)));
      CellAt(delivered.ops, idx).Some? && FinishPutAppend(delivered, args) == PutAppendReply(false, OK, 0)
  {
    var args := PutAppendArgs(contextId, PutAppendCmd(op, key, value), idx);
    var waiting := BeginPutAppend(kv, args, raft).0;
    EventKeepsInv(kv, PutAppendCall(args, raft));
    EventKeepsInv(waiting, Deliver(ApplyMsg(idx, Op(contextId, args.cmd))));
    var delivered := OnApply(waiting, ApplyMsg(idx, Op(contextId, args.cmd)));
    WriteFillsItsCell(delivered, idx, op, key, value);
  }
}
