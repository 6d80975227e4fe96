/** The client: the retry loops of PutAppend and Get over what their calls bring back. */
module Clerk {
  import opened RaftTypes
  import opened Commands
  import opened KvServer
  import opened KvReplay

  /** What a call to a server brought back: whether it got through, and the reply. */
  datatype CallResult = CallResult(ok: bool, reply: PutAppendReply)

  /** The loop's variables: the remembered leader, the index and tries of the arguments, the next
      server to try while no leader is known, and whether PutAppend has returned. */
  datatype Loop = Loop(lastLeader: int, idx: int, tries: int, next: int, done: bool)

  predicate Failed(r: CallResult) {
    !r.ok || r.reply.wrongLeader
  }

  /** The reply of a leader: return, adopt the index, or start over. */
  function Settle(s: Loop, reply: PutAppendReply): Loop {
    if reply.err == OK then
      if s.idx > 0 then s.(done := true)
      else s.(idx := if s.idx < reply.idx then reply.idx else s.idx, tries := 1)
    else if s.idx > 0 && reply.err == ErrNoKey then s.(tries := 0, idx := 0)
    else s
  }

  /** The server the next call goes to. */
  function Target(s: Loop): int {
    if s.lastLeader < 0 then s.next else s.lastLeader
  }

  function AfterCall(s: Loop, n: nat, r: CallResult): Loop {
    if s.lastLeader < 0 then
      if Failed(r) then s.(next := if s.next + 1 >= n then 0 else s.next + 1)
      else Settle(s.(lastLeader := s.next, next := 0), r.reply)
    else if Failed(r) then
      if r.reply.wrongLeader then s.(lastLeader := -1, next := 0) else s
    else Settle(s, r.reply)
  }

  function AfterCalls(s: Loop, n: nat, results: seq<CallResult>): Loop {
    if results == [] then s
    else
      var before := AfterCalls(s, n, results[..|results| - 1]);
      if before.done then before else AfterCall(before, n, results[|results| - 1])
  }

  lemma OneMoreCall(s: Loop, n: nat, results: seq<CallResult>, k: nat)
    requires k < |results| && !AfterCalls(s, n, results[..k]).done
    ensures AfterCalls(s, n, results[..k + 1]) == AfterCall(AfterCalls(s, n, results[..k]), n, results[k])
  {
    assert results[..k + 1][..k] == results[..k];
  }

  // ---------------------------------------------------------------- reads

  /** What a Get call to a server brought back. */
  datatype GetResult = GetResult(ok: bool, reply: GetReply)

  /** The variables of the Get loop: the remembered leader, the server the scan is at (-1 while no
      scan is under way), and what was found once Get has returned. */
  datatype GetLoop = GetLoop(lastLeader: int, scan: int, found: Option<Found>)

  /** A Get about to make its first call: a scan if no leader is known. */
  function GetStart(lastLeader: int): GetLoop {
    GetLoop(lastLeader, if lastLeader < 0 then 0 else -1, None)
  }

  function GetTarget(s: GetLoop): int {
    if s.scan >= 0 then s.scan else s.lastLeader
  }

  /** The scan goes on even after it has found a leader that has no answer, and begins again after
      the last server only if it has found none. */
  function NextScan(s: GetLoop, n: nat): GetLoop {
    if s.scan + 1 < n then s.(scan := s.scan + 1) else GetStart(s.lastLeader)
  }

  function AfterGetCall(s: GetLoop, n: nat, r: GetResult): GetLoop {
    var failed := !r.ok || r.reply.wrongLeader;
    if r.reply.err == ErrNoKey then s.(found := Some(Missing))
    else if failed then if s.scan >= 0 then NextScan(s, n) else GetStart(-1)
    else
      var known := s.(lastLeader := GetTarget(s));
      if r.reply.err == OK then known.(found := Some(Found(r.reply.value)))
      else if s.scan >= 0 then NextScan(known, n)
      else s
  }

  function AfterGetCalls(s: GetLoop, n: nat, results: seq<GetResult>): GetLoop {
    if results == [] then s
    else
      var before := AfterGetCalls(s, n, results[..|results| - 1]);
      if before.found.Some? then before else AfterGetCall(before, n, results[|results| - 1])
  }

  lemma OneMoreGetCall(s: GetLoop, n: nat, results: seq<GetResult>, k: nat)
    requires k < |results| && AfterGetCalls(s, n, results[..k]).found.None?
    ensures AfterGetCalls(s, n, results[..k + 1]) == AfterGetCall(AfterGetCalls(s, n, results[..k]), n, results[k])
  {
    assert results[..k + 1][..k] == results[..k];
  }

  /** The text Get hands to its caller. */
  function Text(found: Found): string {
    match found
    case Found(value) => value
    case Missing => "No key"
  }

  class Clerk {
    const servers: nat
    var lastLeader: int

    constructor (servers: nat)
      ensures this.servers == servers && lastLeader == -1
    {
      this.servers, lastLeader := servers, -1;
    }

    /** Get over the results its calls bring back, one after the other. */
    method Get(results: seq<GetResult>) returns (value: string, done: bool, used: nat)
      requires servers > 0 && lastLeader < servers
      modifies this`lastLeader
      ensures used <= |results| && (done || used == |results|)
      ensures var end := AfterGetCalls(GetStart(old(lastLeader)), servers, results[..used]);
        && end.lastLeader == lastLeader && done == end.found.Some?
        && (done ==> value == Text(end.found.value))
    {
      value, done, used := "", false, 0;
      ghost var start := GetStart(lastLeader);
      while used < |results|
        invariant used <= |results| && lastLeader < servers
        invariant var now := AfterGetCalls(start, servers, results[..used]);
          if used < |results| then now == GetStart(lastLeader)
          else now.lastLeader == lastLeader && now.found.None?
        decreases |results| - used
      {
        if lastLeader < 0 {
          ghost var before := used;
          var i := 0;
          while i < servers && used < |results|
            invariant i <= servers && used <= |results| && lastLeader < servers
            invariant if i == 0 then used == before else used > before
            invariant AfterGetCalls(start, servers, results[..used]) ==
              if i < servers then GetLoop(lastLeader, i, None) else GetStart(lastLeader)
          {
            var r := results[used];
            OneMoreGetCall(start, servers, results, used);
            used := used + 1;
            if r.reply.err == ErrNoKey {
              return "No key", true, used;
            }
            if !r.ok || r.reply.wrongLeader {
              i := i + 1;
              continue;
            }
            lastLeader := i;
            if r.reply.err == OK {
              return r.reply.value, true, used;
            }
            i := i + 1;
          }
        } else {
          var r := results[used];
          OneMoreGetCall(start, servers, results, used);
          used := used + 1;
          if r.reply.err == ErrNoKey {
            return "No key", true, used;
          }
          if !r.ok || r.reply.wrongLeader {
            lastLeader := -1;
          } else if r.reply.err == OK {
            return r.reply.value, true, used;
          }
        }
      }
    }

    /** PutAppend over the results its calls bring back, one after the other; `used` of them are
        consumed when it returns, and all of them if it is still trying. An operation that is
        neither Put nor Append returns without a call. */
    method PutAppend(op: string, results: seq<CallResult>) returns (idx: int, tries: int, done: bool, used: nat)
      requires servers > 0 && lastLeader < servers
      modifies this`lastLeader
      ensures used <= |results| && (done || used == |results|)
      ensures op != PUT && op != APPEND ==> done && used == 0 && lastLeader == old(lastLeader)
      ensures op == PUT || op == APPEND ==>
        var end := AfterCalls(Loop(old(lastLeader), 0, 0, 0, false), servers, results[..used]);
        end.lastLeader == lastLeader && end.idx == idx && end.tries == tries && end.done == done
    {
      idx, tries, done, used := 0, 0, op != PUT && op != APPEND, 0;
      if done {
        return;
      }
      var next := 0;
      ghost var start := Loop(lastLeader, 0, 0, 0, false);
      while !done && used < |results|
        invariant used <= |results| && lastLeader < servers && (done || next == 0 || used == |results|)
        invariant AfterCalls(start, servers, results[..used]) == Loop(lastLeader, idx, tries, next, done)
        decreases |results| - used
      {
        if lastLeader < 0 {
          ghost var before := used;
          var i := 0;
          while i < servers && used < |results|
            invariant 0 <= i <= servers && used <= |results| && lastLeader < 0 && !done
            invariant used >= before && (i > 0 || used > before || used < |results|) && (i > 0 ==> used > before)
            invariant AfterCalls(start, servers, results[..used]) ==
              Loop(lastLeader, idx, tries, if i == servers then 0 else i, done)
          {
            var r := results[used];
            OneMoreCall(start, servers, results, used);
            used := used + 1;
            if !r.ok || r.reply.wrongLeader {
              i := i + 1;
              continue;
            }
            lastLeader := i;
            i := 0;
            idx, tries, done := HandleReply(idx, tries, r.reply);
            break;
          }
          next := if i == servers then 0 else i;
        } else {
          var r := results[used];
          OneMoreCall(start, servers, results, used);
          used := used + 1;
          if !r.ok || r.reply.wrongLeader {
            if r.reply.wrongLeader {
              lastLeader := -1;
            }
            continue;
          }
          idx, tries, done := HandleReply(idx, tries, r.reply);
        }
      }
    }

    method HandleReply(idx0: int, tries0: int, reply: PutAppendReply) returns (idx: int, tries: int, done: bool)
      ensures forall l, x :: Settle(Loop(l, idx0, tries0, x, false), reply) == Loop(l, idx, tries, x, done)
    {
      idx, tries, done := idx0, tries0, false;
      if reply.err == OK {
        if idx > 0 {
          done := true;
          return;
        }
        if idx < reply.idx {
          idx := reply.idx;
        }
        tries := 1;
      } else if idx > 0 && reply.err == ErrNoKey {
        tries := 0;
        idx := 0;
      }
    }
  }
}
