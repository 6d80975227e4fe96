/** Which server a client asks next: a client whose calls keep failing comes to every server. */
module ClerkScan {
  import opened RaftTypes
  import opened KvServer
  import opened KvReplay
  import opened Clerk

  // ---------------------------------------------------------------- writes

  /** The loop is at a server of the cluster. */
  predicate AtServer(s: Loop, n: nat) {
    !s.done && s.lastLeader < n && 0 <= s.next < n
  }

  predicate AllFailed(results: seq<CallResult>) {
    forall i :: 0 <= i < |results| ==> Failed(results[i])
  }

  /** Where k failed calls lead, if the first of them ends what was remembered of a leader. */
  function Position(s: Loop, n: nat, k: nat): Loop
    requires k <= n
  {
    if s.lastLeader < 0 then s.(next := if s.next + k < n then s.next + k else s.next + k - n)
    else if k == 0 then s
    else s.(lastLeader := -1, next := k - 1)
  }

  lemma {:induction false} FailedCallsMoveOn(s: Loop, n: nat, results: seq<CallResult>, k: nat)
    requires AtServer(s, n) && AllFailed(results) && k <= |results| && k <= n
    requires s.lastLeader >= 0 && k > 0 ==> results[0].reply.wrongLeader
    ensures AfterCalls(s, n, results[..k]) == Position(s, n, k)
    decreases k
  {
    if k == 0 {
      assert results[..0] == [];
    } else {
      FailedCallsMoveOn(s, n, results, k - 1);
      OneMoreCall(s, n, results, k - 1);
      assert Failed(results[k - 1]);
    }
  }

  /** While calls fail, lost or answered by servers that do not lead, each server is asked within
      n + 1 calls; the first answer must name a wrong leader if one is remembered. */
  lemma EveryServerIsAsked(s: Loop, n: nat, results: seq<CallResult>, j: nat) returns (k: nat)
    requires AtServer(s, n) && j < n && AllFailed(results) && |results| == n + 1
    requires s.lastLeader >= 0 ==> results[0].reply.wrongLeader
    ensures k <= n && Target(AfterCalls(s, n, results[..k])) == j
  {
    k := if s.lastLeader >= 0 then j + 1 else if j >= s.next then j - s.next else j + n - s.next;
    FailedCallsMoveOn(s, n, results, k);
  }

  /** A call that is lost leaves the client with the leader it remembers; an answer of a leader is
      remembered with its server, ends the write exactly in its second phase, and otherwise brings
      the index or takes it away. */
  lemma AnswersMoveTheWrite(s: Loop, n: nat, r: CallResult)
    requires AtServer(s, n)
    ensures var t := AfterCall(s, n, r);
      && (!r.ok && !r.reply.wrongLeader && s.lastLeader >= 0 ==> t == s)
      && (Failed(r) ==> !t.done && t.idx == s.idx && t.tries == s.tries)
      && (!Failed(r) ==>
            && t.lastLeader == Target(s)
            && (t.done <==> r.reply.err == OK && s.idx > 0)
            && (r.reply.err == OK && s.idx == 0 && r.reply.idx >= 0 ==> t.idx == r.reply.idx && t.tries == 1)
            && (r.reply.err == ErrNoKey && s.idx > 0 ==> t.idx == 0 && t.tries == 0)
            && (r.reply.err == NoErr ==> t.idx == s.idx && t.tries == s.tries))
  {
  }

  // ---------------------------------------------------------------- reads

  predicate AtGetServer(s: GetLoop, n: nat) {
    s.found.None? && s.lastLeader < n && if s.scan >= 0 then s.scan < n else s.scan == -1 && s.lastLeader >= 0
  }

  predicate GetFailed(r: GetResult) {
    (!r.ok || r.reply.wrongLeader) && r.reply.err != ErrNoKey
  }

  predicate AllGetsFailed(results: seq<GetResult>) {
    forall i :: 0 <= i < |results| ==> GetFailed(results[i])
  }

  /** Where k failed calls lead: to the end of the scan, to the leader it may have found, and from
      server 0 on again. */
  function GetPosition(s: GetLoop, n: nat, k: nat): GetLoop
    requires k <= n
  {
    if s.scan < 0 then (if k == 0 then s else GetLoop(-1, k - 1, None))
    else if s.scan + k < n then s.(scan := s.scan + k)
    else if s.lastLeader < 0 then s.(scan := s.scan + k - n)
    else if s.scan + k == n then s.(scan := -1)
    else GetLoop(-1, s.scan + k - n - 1, None)
  }

  lemma {:induction false} FailedGetsMoveOn(s: GetLoop, n: nat, results: seq<GetResult>, k: nat)
    requires AtGetServer(s, n) && AllGetsFailed(results) && k <= |results| && k <= n
    ensures AfterGetCalls(s, n, results[..k]) == GetPosition(s, n, k)
    decreases k
  {
    if k == 0 {
      assert results[..0] == [];
    } else {
      FailedGetsMoveOn(s, n, results, k - 1);
      OneMoreGetCall(s, n, results, k - 1);
      assert GetFailed(results[k - 1]);
    }
  }

  /** While the calls of a Get fail, lost or not, each server is asked within n + 1 calls. */
  lemma EveryServerIsAskedByGet(s: GetLoop, n: nat, results: seq<GetResult>, j: nat) returns (k: nat)
    requires AtGetServer(s, n) && j < n && AllGetsFailed(results) && |results| == n + 1
    ensures k <= n && GetTarget(AfterGetCalls(s, n, results[..k])) == j
  {
    k := if s.scan < 0 then j + 1
         else if j >= s.scan then j - s.scan
         else if s.lastLeader < 0 then j + n - s.scan
         else j + n - s.scan + 1;
    FailedGetsMoveOn(s, n, results, k);
  }

  /** A Get returns exactly on an answer, and remembers the server that answered as a leader. */
  lemma AnswersEndTheRead(s: GetLoop, n: nat, r: GetResult)
    requires AtGetServer(s, n)
    ensures var t := AfterGetCall(s, n, r);
      && (t.found.Some? <==> r.reply.err == ErrNoKey || (r.ok && !r.reply.wrongLeader && r.reply.err == OK))
      && (t.found.Some? ==> t.found.value == if r.reply.err == ErrNoKey then Missing else Found(r.reply.value))
      && (t.found.Some? ==> Text(t.found.value) == if r.reply.err == ErrNoKey then "No key" else r.reply.value)
      && (r.ok && !r.reply.wrongLeader && r.reply.err != ErrNoKey ==> t.lastLeader == GetTarget(s))
  {
  }
}
