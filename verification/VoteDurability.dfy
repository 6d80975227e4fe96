/** One server across crashes: it keeps only what persist() last wrote. */
module VoteDurability {
  import opened RaftTypes
  import opened RaftHandlers
  import opened RaftSteps
  import opened RaftServer
  import opened ApplyStream
  import ElectionSafety

  datatype Node = Node(server: Server, disk: Option<seq<bv8>>)

  /** An event, or a crash followed by a restart from the persister. */
  datatype NodeStep = Do(event: Event) | Crash

  /** The handlers that end in persist(). Election start is not one of them. */
  predicate Persists(s: Server, me: int, e: Event)
    requires CanHandle(s, e)
  {
    e.RequestVote? || e.HeartBeat? || e.Batch? || (e.Commit? && OnCommit(s).commitIdx != s.commitIdx)
  }

  /** Candidates are peers, so their identifiers are not the "no vote" marker. */
  predicate StepOk(node: Node, me: int, step: NodeStep) {
    step.Do? ==> CanHandle(node.server, step.event) && (step.event.RequestVote? ==> step.event.vote.id != -1)
  }

  function NodeAfter(codec: Codec, n: nat, me: int, node: Node, step: NodeStep): Node
    requires StepOk(node, me, step)
  {
    match step
    case Crash => Node(Restored(codec, n, node.disk), node.disk)
    case Do(e) =>
      var s := Handle(node.server, me, e);
      Node(s, if Persists(node.server, me, e) then Some(Saved(codec, s)) else node.disk)
  }

  predicate NodeFeasible(codec: Codec, n: nat, me: int, node: Node, steps: seq<NodeStep>)
    decreases |steps|
  {
    steps == [] ||
    (StepOk(node, me, steps[0]) && NodeFeasible(codec, n, me, NodeAfter(codec, n, me, node, steps[0]), steps[1..]))
  }

  function NodeRun(codec: Codec, n: nat, me: int, node: Node, steps: seq<NodeStep>): Node
    requires NodeFeasible(codec, n, me, node, steps)
    decreases |steps|
  {
    if steps == [] then node
    else NodeRun(codec, n, me, NodeAfter(codec, n, me, node, steps[0]), steps[1..])
  }

  /** The term in which a step grants a vote to a peer, if it does. */
  function GrantedIn(node: Node, step: NodeStep): seq<int>
    requires step.Do? ==> CanHandle(node.server, step.event)
  {
    if step.Do? && step.event.RequestVote? && Grants(node.server, step.event.vote)
    then [step.event.vote.term] else []
  }

  function GrantedTerms(codec: Codec, n: nat, me: int, node: Node, steps: seq<NodeStep>): seq<int>
    requires NodeFeasible(codec, n, me, node, steps)
    decreases |steps|
  {
    if steps == [] then []
    else GrantedIn(node, steps[0]) +
         GrantedTerms(codec, n, me, NodeAfter(codec, n, me, node, steps[0]), steps[1..])
  }

  predicate Increasing(s: seq<int>) {
    forall i, j :: 0 <= i < j < |s| ==> s[i] < s[j]
  }

  /** Both memory and disk remember that a vote was granted in some term at or above `term`. */
  predicate Held(codec: Codec, node: Node, term: int) {
    && node.server.currentTerm >= term && node.server.votedFor != -1
    && node.disk.Some?
    && codec.decode(node.disk.value).term >= term && codec.decode(node.disk.value).votedFor != -1
  }

  lemma StepKeepsHeld(codec: Codec, n: nat, me: int, node: Node, step: NodeStep, term: int)
    requires RoundTrips(codec) && me != -1 && StepOk(node, me, step) && Held(codec, node, term)
    ensures Held(codec, NodeAfter(codec, n, me, node, step), term)
    ensures forall t :: t in GrantedIn(node, step) ==> t > term && Held(codec, NodeAfter(codec, n, me, node, step), t)
  {
    if step.Do? {
      var s := Handle(node.server, me, step.event);
      assert s.currentTerm >= node.server.currentTerm && s.votedFor != -1;
      assert codec.decode(Saved(codec, s)) == Persistent(s.currentTerm, s.votedFor, s.logs);
    }
  }

  /** A server that granted a vote in some term never grants again in that term or below,
      whatever it does afterwards and however often it crashes. */
  lemma {:induction false} NoSecondGrant(
    codec: Codec, n: nat, me: int, node: Node, steps: seq<NodeStep>, term: int)
    requires RoundTrips(codec) && me != -1 && NodeFeasible(codec, n, me, node, steps)
    requires Held(codec, node, term)
    ensures forall t :: t in GrantedTerms(codec, n, me, node, steps) ==> t > term
    decreases |steps|
  {
    if steps == [] {
    } else {
      StepKeepsHeld(codec, n, me, node, steps[0], term);
      NoSecondGrant(codec, n, me, NodeAfter(codec, n, me, node, steps[0]), steps[1..], term);
    }
  }

  /** From any node at all, the terms of the votes it grants to peers strictly increase across
      any sequence of steps, crashes and restarts. */
  lemma {:induction false} GrantedTermsIncrease(codec: Codec, n: nat, me: int, node: Node, steps: seq<NodeStep>)
    requires RoundTrips(codec) && me != -1 && NodeFeasible(codec, n, me, node, steps)
    ensures Increasing(GrantedTerms(codec, n, me, node, steps))
    decreases |steps|
  {
    if steps == [] {
    } else {
      var next := NodeAfter(codec, n, me, node, steps[0]);
      GrantedTermsIncrease(codec, n, me, next, steps[1..]);
      var first := GrantedIn(node, steps[0]);
      var rest := GrantedTerms(codec, n, me, next, steps[1..]);
      if first != [] {
        var s := next.server;
        assert codec.decode(Saved(codec, s)) == Persistent(s.currentTerm, s.votedFor, s.logs);
        assert Held(codec, next, first[0]);
        NoSecondGrant(codec, n, me, next, steps[1..], first[0]);
        forall j | 0 <= j < |rest|
          ensures rest[j] > first[0]
        {
          assert rest[j] in rest;
        }
      }
      PrependKeepsOrder(first, rest);
      assert GrantedTerms(codec, n, me, node, steps) == first + rest;
    }
  }

  lemma PrependKeepsOrder(first: seq<int>, rest: seq<int>)
    requires |first| <= 1
    requires Increasing(rest)
    requires forall j :: first != [] && 0 <= j < |rest| ==> rest[j] > first[0]
    ensures Increasing(first + rest)
  {
  }

  // ---------------------------------------------------------------- the self-vote

  /** Some candidate's request of this term would be granted. */
  ghost predicate CanGrant(s: Server, term: int)
    requires s.logs != []
  {
    exists vote: VoteArgs :: vote.term == term && vote.id != -1 && Grants(s, vote)
  }

  /** The term a restart begins in. */
  function DiskTerm(codec: Codec, disk: Option<seq<bv8>>): int {
    if disk.None? then 0 else codec.decode(disk.value).term
  }

  /** The disk is behind the memory, and a restart from it has a log. */
  predicate DiskOk(codec: Codec, node: Node) {
    && node.server.logs != [] && DiskTerm(codec, node.disk) <= node.server.currentTerm
    && (node.disk.Some? ==> codec.decode(node.disk.value).logs != [])
  }

  /** Some step of the run ends in persist(). */
  predicate Persisted(codec: Codec, n: nat, me: int, node: Node, steps: seq<NodeStep>)
    requires NodeFeasible(codec, n, me, node, steps)
    decreases |steps|
  {
    && steps != []
    && (|| (steps[0].Do? && Persists(node.server, me, steps[0].event))
        || Persisted(codec, n, me, NodeAfter(codec, n, me, node, steps[0]), steps[1..]))
  }

  predicate CrashFree(steps: seq<NodeStep>) {
    forall k :: 0 <= k < |steps| ==> steps[k].Do?
  }

  lemma EventKeepsMemory(s: Server, me: int, e: Event)
    requires CanHandle(s, e) && s.logs != [] && me != -1 && (e.RequestVote? ==> e.vote.id != -1)
    ensures var t := Handle(s, me, e); t.logs != [] && ElectionSafety.Keeps(s, t)
  {
    ElectionSafety.EventKeeps(s, me, e);
  }

  lemma StepKeepsDiskOk(codec: Codec, n: nat, me: int, node: Node, step: NodeStep)
    requires RoundTrips(codec) && me != -1 && StepOk(node, me, step) && DiskOk(codec, node)
    ensures DiskOk(codec, NodeAfter(codec, n, me, node, step))
  {
    if step.Do? {
      EventKeepsMemory(node.server, me, step.event);
      var s := Handle(node.server, me, step.event);
      assert codec.decode(Saved(codec, s)) == Persistent(s.currentTerm, s.votedFor, s.logs);
    }
  }

  /** Whatever a server has been through since it was first started, its disk is behind its memory. */
  lemma {:induction false} DiskStaysBehind(codec: Codec, n: nat, me: int, node: Node, steps: seq<NodeStep>)
    requires RoundTrips(codec) && me != -1 && DiskOk(codec, node) && NodeFeasible(codec, n, me, node, steps)
    ensures DiskOk(codec, NodeRun(codec, n, me, node, steps))
    decreases |steps|
  {
    if steps == [] {
    } else {
      StepKeepsDiskOk(codec, n, me, node, steps[0]);
      DiskStaysBehind(codec, n, me, NodeAfter(codec, n, me, node, steps[0]), steps[1..]);
    }
  }

  /** A restarted server can grant in a term exactly when its disk holds no vote at or above it. */
  lemma RestartedGrants(codec: Codec, n: nat, disk: Option<seq<bv8>>, term: int)
    requires disk.Some? ==> codec.decode(disk.value).logs != []
    ensures var s := Restored(codec, n, disk);
      s.logs != [] && (CanGrant(s, term) <==>
        term > DiskTerm(codec, disk) ||
        (term == DiskTerm(codec, disk) && (disk.Some? ==> codec.decode(disk.value).votedFor == -1)))
  {
    var s := Restored(codec, n, disk);
    var vote := VoteArgs(term, 0, Last(s.logs));
    assert UpToDate(vote.log, Last(s.logs));
    assert Grants(s, vote) ==> CanGrant(s, term);
  }

  /** The disk holds a vote at or above the term. */
  predicate DiskHolds(codec: Codec, disk: Option<seq<bv8>>, term: int) {
    && disk.Some?
    && codec.decode(disk.value).term >= term
    && (codec.decode(disk.value).term == term ==> codec.decode(disk.value).votedFor != -1)
  }

  /** Memory holds a vote in the term; without a crash, the disk comes to hold it with the first
      step that persists, and not before. */
  lemma {:induction false} DiskHoldsIfPersisted(
    codec: Codec, n: nat, me: int, node: Node, steps: seq<NodeStep>, term: int)
    requires RoundTrips(codec) && me != -1 && NodeFeasible(codec, n, me, node, steps) && CrashFree(steps)
    requires node.server.logs != [] && node.server.currentTerm >= term && node.server.votedFor != -1
    ensures var end := NodeRun(codec, n, me, node, steps);
      if Persisted(codec, n, me, node, steps) then DiskHolds(codec, end.disk, term) else end.disk == node.disk
    ensures DiskHolds(codec, node.disk, term) ==> DiskHolds(codec, NodeRun(codec, n, me, node, steps).disk, term)
    decreases |steps|
  {
    if steps == [] {
    } else {
      var next := NodeAfter(codec, n, me, node, steps[0]);
      EventKeepsMemory(node.server, me, steps[0].event);
      assert codec.decode(Saved(codec, next.server)) ==
             Persistent(next.server.currentTerm, next.server.votedFor, next.server.logs);
      DiskHoldsIfPersisted(codec, n, me, next, steps[1..], term);
    }
  }

  /** When the vote a candidate casts for itself survives a crash: after an election start, any
      steps and a crash, the restarted server can vote for a peer in the term of its own
      candidacy if and only if none of those steps ended in persist(). */
  lemma SelfVoteSurvivesExactlyIfPersisted(codec: Codec, n: nat, me: int, node: Node, mid: seq<NodeStep>)
    requires RoundTrips(codec) && me != -1 && DiskOk(codec, node) && StepOk(node, me, Do(Elect))
    requires NodeFeasible(codec, n, me, NodeAfter(codec, n, me, node, Do(Elect)), mid) && CrashFree(mid)
    ensures var candidate := NodeAfter(codec, n, me, node, Do(Elect));
      var restarted := NodeAfter(codec, n, me, NodeRun(codec, n, me, candidate, mid), Crash).server;
      && restarted.logs != []
      && (CanGrant(restarted, candidate.server.currentTerm) <==> !Persisted(codec, n, me, candidate, mid))
  {
    var candidate := NodeAfter(codec, n, me, node, Do(Elect));
    StepKeepsDiskOk(codec, n, me, node, Do(Elect));
    DiskStaysBehind(codec, n, me, candidate, mid);
    DiskHoldsIfPersisted(codec, n, me, candidate, mid, candidate.server.currentTerm);
    RestartedGrants(codec, n, NodeRun(codec, n, me, candidate, mid).disk, candidate.server.currentTerm);
  }

  /** The shortest such run: a candidate that crashes at once votes for a peer in the term in
      which it was a candidate. */
  lemma SelfVoteIsNotDurable(codec: Codec)
    ensures var node := Node(Fresh(3), None);
            var steps := [Do(Elect), Crash, Do(RequestVote(VoteArgs(1, 1, SENTINEL)))];
            && NodeFeasible(codec, 3, 0, node, steps)
            && OnElection(node.server, 0).1.term == 1
            && GrantedTerms(codec, 3, 0, node, steps) == [1]
  {
    var node := Node(Fresh(3), None);
    var vote := Do(RequestVote(VoteArgs(1, 1, SENTINEL)));
    var steps := [Do(Elect), Crash, vote];
    var n1 := NodeAfter(codec, 3, 0, node, Do(Elect));
    var n2 := NodeAfter(codec, 3, 0, n1, Crash);
    var n3 := NodeAfter(codec, 3, 0, n2, vote);
    assert steps[1..] == [Crash, vote] && steps[1..][1..] == [vote];
    assert NodeFeasible(codec, 3, 0, n3, []);
    assert NodeFeasible(codec, 3, 0, n2, [vote]);
    assert GrantedTerms(codec, 3, 0, n2, [vote]) == [1] + [];
    assert GrantedTerms(codec, 3, 0, n1, [Crash, vote]) == [] + [1];
  }

  // ---------------------------------------------------------------- what a restart restores

  predicate DiskGood(codec: Codec, disk: Option<seq<bv8>>) {
    disk.Some? ==> GoodLog(codec.decode(disk.value).logs)
  }

  predicate NodeWellNumbered(codec: Codec, n: nat, me: int, node: Node, steps: seq<NodeStep>)
    requires NodeFeasible(codec, n, me, node, steps)
    decreases |steps|
  {
    steps == [] ||
    (&& (steps[0].Do? ==> WellNumbered(node.server, steps[0].event))
     && NodeWellNumbered(codec, n, me, NodeAfter(codec, n, me, node, steps[0]), steps[1..]))
  }

  /** In every state reached, crashes included, the server's applied stream is gapless; and a
      restart from the disk at that point yields a log with logidx at its last entry and an
      apply stream that begins anew. */
  lemma {:induction false} RestartsAreWellFormed(codec: Codec, n: nat, me: int, node: Node, steps: seq<NodeStep>)
    requires RoundTrips(codec) && NodeFeasible(codec, n, me, node, steps)
    requires NodeWellNumbered(codec, n, me, node, steps)
    requires GaplessStream(node.server) && DiskGood(codec, node.disk)
    ensures var end := NodeRun(codec, n, me, node, steps);
            && GaplessStream(end.server)
            && var r := Restored(codec, n, end.disk);
               GaplessStream(r) && r.logidx == Last(r.logs).index && r.applied == []
    decreases |steps|
  {
    if steps == [] {
    } else {
      var next := NodeAfter(codec, n, me, node, steps[0]);
      if steps[0].Do? {
        EventKeepsStream(node.server, me, steps[0].event);
        var s := next.server;
        assert codec.decode(Saved(codec, s)) == Persistent(s.currentTerm, s.votedFor, s.logs);
      }
      RestartsAreWellFormed(codec, n, me, next, steps[1..]);
    }
  }
}
