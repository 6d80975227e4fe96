/** A leader bringing one follower up to date: a tick, the send, the follower's HeartBeat and
    the leader's back-off, repeated. */
module CatchUp {
  import opened RaftTypes
  import opened RaftHandlers
  import opened HeartBeatMerge

  ghost predicate Ready(l: Server, f: Server, me: int, peer: int) {
    && l.isLeader && GoodLog(l.logs) && l.currentTerm >= 1
    && 0 <= peer < |l.rdy| == |l.nextIndex| == |l.matchIndex| && peer != me
    && l.rdy[peer] == [] && 1 <= l.nextIndex[peer]
    && GoodLog(f.logs) && f.lastApplied >= 0 && f.currentTerm <= l.currentTerm
    && Matching(f.logs, l.logs)
  }

  /** The PrevLog index of the leader's next message to the peer. */
  function NextPrev(l: Server, peer: int): int
    requires 0 <= peer < |l.nextIndex|
  {
    Min(|l.logs| - 1, l.nextIndex[peer] - 1)
  }

  /** A tick followed by the send: the argument that goes out. */
  ghost function Sent(l: Server, f: Server, me: int, peer: int): (r: (Server, AppendArgs))
    requires Ready(l, f, me, peer)
    ensures Segment(l.logs, r.1.prevLog, r.1.entries) && Reach(r.1) == |l.logs|
    ensures r.1.prevLog.index == NextPrev(l, peer) && r.1.term == l.currentTerm
    ensures r.0.logs == l.logs && r.0.isLeader && r.0.currentTerm == l.currentTerm
    ensures r.0.nextIndex == l.nextIndex && r.0.matchIndex == l.matchIndex
    ensures |r.0.rdy| == |l.rdy| && r.0.rdy[peer] == []
  {
    var ticked := OnTick(l, me);
    var (l1, sent) := OnSend(ticked, peer);
    var prev := Last(l.logs).index;
    var next := l.nextIndex[peer];
    assert next <= prev ==> l.logs[next..prev + 1] + [] == l.logs[next - 1 + 1..next - 1 + 1 + (prev + 1 - next)];
    (l1, sent.value)
  }

  ghost function Round(l: Server, f: Server, me: int, peer: int): (Server, Server, AppendReply)
    requires Ready(l, f, me, peer)
  {
    var (l1, sent) := Sent(l, f, me, peer);
    HeartBeatReconciles(f, l.logs, sent);
    var (f1, reply) := OnHeartBeat(f, sent);
    assert reply.success || (reply.lastEntry.index < |l.logs| && HasOlder(l.logs, reply.lastEntry.index, sent.term))
      by { assert l.logs[0].term < sent.term; }
    (OnAppendReply(l1, peer, sent, reply), f1, reply)
  }

  /** A rejection that names a position before PrevLog makes the leader start at or before it. */
  lemma BackOffLowersNext(l: Server, peer: int, sent: AppendArgs, reply: AppendReply)
    requires AppendReplySafe(l, peer, sent, reply) && !reply.success && reply.term <= l.currentTerm
    requires 0 <= reply.lastEntry.index
    ensures var t := OnAppendReply(l, peer, sent, reply);
      t == l.(nextIndex := t.nextIndex) && |t.nextIndex| == |l.nextIndex|
      && 1 <= t.nextIndex[peer] <= reply.lastEntry.index + 1
  {
  }

  /** What a rejected round leaves at the follower: a shorter prefix of its log. */
  lemma RejectionShortens(f: Server, leader: seq<Entry>, sent: AppendArgs)
    requires GoodLog(f.logs) && GoodLog(leader) && Matching(f.logs, leader) && f.lastApplied >= 0
    requires Segment(leader, sent.prevLog, sent.entries) && sent.term >= f.currentTerm
    ensures HeartBeatSafe(f, sent)
    ensures !OnHeartBeat(f, sent).1.success ==>
      && GoodLog(OnHeartBeat(f, sent).0.logs) && Matching(OnHeartBeat(f, sent).0.logs, leader)
      && OnHeartBeat(f, sent).0.lastApplied == f.lastApplied
      && 0 <= OnHeartBeat(f, sent).1.lastEntry.index < sent.prevLog.index
  {
    HeartBeatReconciles(f, leader, sent);
    if !OnHeartBeat(f, sent).1.success {
      var logs := OnHeartBeat(f, sent).0.logs;
      assert logs[0] == f.logs[0];
      PrefixMatches(logs, f.logs, leader);
    }
  }

  /** A successful round leaves the follower holding the leader's whole log; a rejected one
      strictly lowers the PrevLog index of the next message. */
  ghost predicate Progress(l: Server, me: int, peer: int, before: int, r: (Server, Server, AppendReply)) {
    && r.0.logs == l.logs
    && (r.2.success ==> l.logs <= r.1.logs)
    && (!r.2.success ==> Ready(r.0, r.1, me, peer) && 0 <= NextPrev(r.0, peer) < before)
  }

  lemma RoundMakesProgress(l: Server, f: Server, me: int, peer: int)
    requires Ready(l, f, me, peer)
    ensures Progress(l, me, peer, NextPrev(l, peer), Round(l, f, me, peer))
  {
    var (l1, sent) := Sent(l, f, me, peer);
    AnsweredRoundMakesProgress(l, l1, f, me, peer, sent);
  }

  lemma AnsweredRoundMakesProgress(l: Server, l1: Server, f: Server, me: int, peer: int, sent: AppendArgs)
    requires Ready(l, f, me, peer) && (l1, sent) == Sent(l, f, me, peer)
    ensures Progress(l, me, peer, NextPrev(l, peer), Round(l, f, me, peer))
  {
    HeartBeatReconciles(f, l.logs, sent);
    RejectionShortens(f, l.logs, sent);
    var reply := OnHeartBeat(f, sent).1;
    if reply.success {
      assert l.logs[..|l.logs|] == l.logs;
    } else {
      assert HasOlder(l.logs, reply.lastEntry.index, sent.term) by { assert l.logs[0].term < sent.term; }
      BackOffLowersNext(l1, peer, sent, reply);
    }
  }

  lemma PrefixMatches(a: seq<Entry>, b: seq<Entry>, leader: seq<Entry>)
    requires a <= b && Matching(b, leader)
    ensures Matching(a, leader)
  {
    forall i | 0 <= i < |a| && i < |leader| && a[i].term == leader[i].term
      ensures a[..i + 1] == leader[..i + 1]
    {
      assert a[..i + 1] == b[..i + 1];
    }
  }

  /** Up to k rounds, stopping at the first success: the follower at the end, and whether it succeeded. */
  ghost function Rounds(l: Server, f: Server, me: int, peer: int, k: nat): (Server, bool)
    requires Ready(l, f, me, peer)
    decreases k, 0
  {
    if k == 0 then (f, false)
    else
      RoundMakesProgress(l, f, me, peer);
      Onward(Round(l, f, me, peer), me, peer, k - 1)
  }

  /** Stop after a successful round, and otherwise go on for up to k more. */
  ghost function Onward(r: (Server, Server, AppendReply), me: int, peer: int, k: nat): (Server, bool)
    requires !r.2.success ==> Ready(r.0, r.1, me, peer)
    decreases k, 1
  {
    if r.2.success then (r.1, true) else Rounds(r.0, r.1, me, peer, k)
  }

  lemma {:induction false} OnwardTerminates(r: (Server, Server, AppendReply), me: int, peer: int, k: nat)
    requires r.2.success ==> r.0.logs <= r.1.logs
    requires !r.2.success ==> Ready(r.0, r.1, me, peer) && k >= NextPrev(r.0, peer) + 1
    ensures Onward(r, me, peer, k).1 && r.0.logs <= Onward(r, me, peer, k).0.logs
    decreases k, 1
  {
    if !r.2.success {
      CatchUpTerminates(r.0, r.1, me, peer, k);
    }
  }

  /** At most PrevLog.Index + 1 rounds bring any matching follower to the leader's whole log. */
  lemma {:induction false} CatchUpTerminates(l: Server, f: Server, me: int, peer: int, k: nat)
    requires Ready(l, f, me, peer) && k >= NextPrev(l, peer) + 1
    ensures Rounds(l, f, me, peer, k).1
    ensures l.logs <= Rounds(l, f, me, peer, k).0.logs
    decreases k, 0
  {
    RoundMakesProgress(l, f, me, peer);
    OnwardTerminates(Round(l, f, me, peer), me, peer, k - 1);
  }
}
