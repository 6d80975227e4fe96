/** The key/value server: the apply loop and the handlers as functions on its state, and the
    RaftKV object whose methods compute them. */
module KvServer {
  import opened RaftTypes
  import opened Commands

  /** What an apply leaves for a waiting handler, and the one-slot channel that carries it. */
  datatype Outcome = Outcome(val: string, ok: bool)
  type Cell = Option<Outcome>

  /** The maps of RaftKV. `order` is history: the indices in the order first delivered. */
  datatype Kv = Kv(
    log: map<int, string>,
    db: map<string, string>,
    ops: map<int, Cell>,
    context: map<string, int>,
    order: seq<int>)

  const EMPTY_KV := Kv(map[], map[], map[], map[], [])

  datatype Err = NoErr | OK | ErrNoKey

  datatype PutAppendArgs = PutAppendArgs(contextId: string, cmd: string, idx: int)
  datatype PutAppendReply = PutAppendReply(wrongLeader: bool, err: Err, idx: int)
  datatype GetReply = GetReply(wrongLeader: bool, err: Err, value: string)

  // ---------------------------------------------------------------- the state machine

  function Stored(db: map<string, string>, key: string): string {
    if key in db then db[key] else ""
  }

  /** The effect of one command on the database. */
  function Execute(db: map<string, string>, cmd: string): map<string, string> {
    var (op, rest) := ParseCmd(cmd);
    var (key, value) := SplitPutAppendCmd(rest);
    if op == PUT then db[key := value]
    else if op == APPEND then db[key := Stored(db, key) + value]
    else db
  }

  /** The database after a sequence of commands. */
  function Replay(cmds: seq<string>): map<string, string> {
    if cmds == [] then map[] else Execute(Replay(cmds[..|cmds| - 1]), cmds[|cmds| - 1])
  }

  /** What the first delivery of a command leaves in its cell, given the database before it;
      nothing for a command that is no operation. */
  function Answer(db: map<string, string>, cmd: string): Cell {
    var (op, key) := ParseCmd(cmd);
    if op == PUT || op == APPEND then Some(Outcome(cmd, true))
    else if op == GET then
      Some(if key in db then Outcome(cmd + KEY_VALUE_SEPARATOR + db[key], true) else Outcome("", false))
    else None
  }

  // ---------------------------------------------------------------- the apply loop

  /** A non-blocking send into a cell that exists: the first value stays. */
  function Filled(cell: Cell, r: Outcome): Cell {
    if cell.Some? then cell else Some(r)
  }

  function CellAt(ops: map<int, Cell>, idx: int): Cell {
    if idx in ops then ops[idx] else None
  }

  function OnFirstDelivery(kv: Kv, idx: int, contextId: string, cmd: string): Kv {
    var answer := Answer(kv.db, cmd);
    Kv(kv.log[idx := cmd],
       Execute(kv.db, cmd),
       if answer.Some? then kv.ops[idx := Filled(CellAt(kv.ops, idx), answer.value)] else kv.ops,
       kv.context[contextId := idx],
       kv.order + [idx])
  }

  function OnRedelivery(kv: Kv, idx: int): Kv
    requires idx in kv.log
  {
    if idx in kv.ops then kv.(ops := kv.ops[idx := Filled(kv.ops[idx], Outcome(kv.log[idx], true))]) else kv
  }

  function OnApply(kv: Kv, msg: ApplyMsg): Kv {
    match msg.command
    case Op(contextId, cmd) =>
      if msg.index in kv.log then OnRedelivery(kv, msg.index)
      else OnFirstDelivery(kv, msg.index, contextId, cmd)
    case _ => kv
  }

  // ---------------------------------------------------------------- the handlers

  /** What the Raft server answered: whether ReturnState was reached and named it leader, and the
      index Agree returned, if that call succeeded. */
  datatype RaftAnswers = RaftAnswers(stateOk: bool, isLeader: bool, agreed: Option<int>)

  function WithCell(kv: Kv, idx: int): Kv {
    if idx in kv.ops then kv else kv.(ops := kv.ops[idx := None])
  }

  /** PutAppend up to its reply, or up to the wait for cell args.idx. In the first phase the reply
      carries the index of an earlier call with this context, and 0 when this call was the first. */
  function BeginPutAppend(kv: Kv, args: PutAppendArgs, raft: RaftAnswers): (Kv, Option<PutAppendReply>) {
    if !raft.stateOk || !raft.isLeader then (kv, Some(PutAppendReply(true, NoErr, 0)))
    else if args.idx == 0 then
      if args.contextId in kv.context then
        (kv, Some(PutAppendReply(false, OK, kv.context[args.contextId])))
      else if raft.agreed.None? then (kv, Some(PutAppendReply(false, NoErr, 0)))
      else (kv.(context := kv.context[args.contextId := raft.agreed.value]), Some(PutAppendReply(false, OK, 0)))
    else (WithCell(kv, args.idx), None)
  }

  /** The second phase once the cell is full: receive, put back, compare. */
  function FinishPutAppend(kv: Kv, args: PutAppendArgs): PutAppendReply
    requires CellAt(kv.ops, args.idx).Some?
  {
    var re := kv.ops[args.idx].value;
    PutAppendReply(false, if re.ok && re.val == args.cmd then OK else ErrNoKey, 0)
  }

  /** Get up to its reply, or up to the wait for the cell of the index it names. */
  function BeginGet(kv: Kv, contextId: string, raft: RaftAnswers): (Kv, Option<GetReply>, int) {
    if !raft.stateOk || !raft.isLeader then (kv, Some(GetReply(true, NoErr, "")), 0)
    else if raft.agreed.None? then (kv, Some(GetReply(false, NoErr, "")), 0)
    else
      var idx := raft.agreed.value;
      (WithCell(kv.(context := kv.context[contextId := idx]), idx), None, idx)
  }

  function FinishGet(kv: Kv, idx: int, cmd: string): GetReply
    requires CellAt(kv.ops, idx).Some?
  {
    var (key, val) := SplitPutAppendCmd(kv.ops[idx].value.val);
    if key == cmd then GetReply(false, OK, val) else GetReply(false, ErrNoKey, "")
  }

  // ---------------------------------------------------------------- the object

  class RaftKV {
    var log: map<int, string>
    var db: map<string, string>
    var ops: map<int, Cell>
    var context: map<string, int>
    ghost var order: seq<int>

    ghost function State(): Kv
      reads this
    {
      Kv(log, db, ops, context, order)
    }

    constructor ()
      ensures State() == EMPTY_KV
    {
      log, db, ops, context, order := map[], map[], map[], map[], [];
    }

    /** Make the cell of idx if there is none and send r without blocking. */
    method Post(idx: int, r: Outcome)
      modifies this`ops
      ensures ops == old(ops)[idx := Filled(CellAt(old(ops), idx), r)]
    {
      if idx !in ops {
        ops := ops[idx := None];
      }
      if ops[idx].None? {
        ops := ops[idx := Some(r)];
      }
    }

    /** One iteration of the apply loop. */
    method Apply(msg: ApplyMsg)
      modifies this
      ensures State() == OnApply(old(State()), msg)
    {
      if !msg.command.Op? {
        return;
      }
      var idx := msg.index;
      if idx in log {
        if idx in ops {
          Post(idx, Outcome(log[idx], true));
        }
        return;
      }
      var cmd := msg.command.cmd;
      log := log[idx := cmd];
      order := order + [idx];
      var (op, val) := ParseCmd(cmd);
      context := context[msg.command.contextId := idx];
      if op == PUT {
        var (k, v) := SplitPutAppendCmd(val);
        db := db[k := v];
        Post(idx, Outcome(cmd, true));
      } else if op == APPEND {
        var (k, v) := SplitPutAppendCmd(val);
        if k in db {
          db := db[k := db[k] + v];
        } else {
          assert "" + v == v;
          db := db[k := v];
        }
        Post(idx, Outcome(cmd, true));
      } else if op == GET {
        if val in db {
          Post(idx, Outcome(cmd + KEY_VALUE_SEPARATOR + db[val], true));
        } else {
          Post(idx, Outcome("", false));
        }
      }
    }

    method PutAppend(args: PutAppendArgs, raft: RaftAnswers) returns (reply: Option<PutAppendReply>)
      modifies this
      ensures (State(), reply) == BeginPutAppend(old(State()), args, raft)
    {
      if !raft.stateOk || !raft.isLeader {
        return Some(PutAppendReply(true, NoErr, 0));
      }
      if args.idx == 0 {
        var idx := 0;
        if args.contextId in context {
          idx := context[args.contextId];
        } else {
          if raft.agreed.None? {
            return Some(PutAppendReply(false, NoErr, 0));
          }
          context := context[args.contextId := raft.agreed.value];
        }
        return Some(PutAppendReply(false, OK, idx));
      }
      if args.idx !in ops {
        ops := ops[args.idx := None];
      }
      return None;
    }

    method Get(contextId: string, raft: RaftAnswers) returns (reply: Option<GetReply>, idx: int)
      modifies this
      ensures (State(), reply, idx) == BeginGet(old(State()), contextId, raft)
    {
      if !raft.stateOk || !raft.isLeader {
        return Some(GetReply(true, NoErr, "")), 0;
      }
      if raft.agreed.None? {
        return Some(GetReply(false, NoErr, "")), 0;
      }
      idx := raft.agreed.value;
      context := context[contextId := idx];
      if idx !in ops {
        ops := ops[idx := None];
      }
      return None, idx;
    }

    /** Receive from the full cell and put the value back, as one step. */
    method Receive(idx: int) returns (re: Outcome)
      requires CellAt(ops, idx).Some?
      modifies this`ops
      ensures Some(re) == CellAt(old(ops), idx) && ops == old(ops)
    {
      re := ops[idx].value;
      ops := ops[idx := None];
      ops := ops[idx := Some(re)];
    }

    method FinishPutAppendCall(args: PutAppendArgs) returns (reply: PutAppendReply)
      requires CellAt(ops, args.idx).Some?
      modifies this`ops
      ensures reply == FinishPutAppend(old(State()), args) && State() == old(State())
    {
      var re := Receive(args.idx);
      if re.ok && re.val == args.cmd {
        return PutAppendReply(false, OK, 0);
      }
      return PutAppendReply(false, ErrNoKey, 0);
    }

    method FinishGetCall(idx: int, cmd: string) returns (reply: GetReply)
      requires CellAt(ops, idx).Some?
      modifies this`ops
      ensures reply == FinishGet(old(State()), idx, cmd) && State() == old(State())
    {
      var re := Receive(idx);
      var (key, val) := SplitPutAppendCmd(re.val);
      if key == cmd {
        return GetReply(false, OK, val);
      }
      return GetReply(false, ErrNoKey, "");
    }
  }
}
