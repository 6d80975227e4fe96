# A verified model of the Raft server, its key/value server and its client

This project models the three parts of the repository that carry its logic and proves what they
keep:

- the Raft server (`raft/raft.go`): every RPC handler and goroutine body as a step function on one
  server's state, the same code as methods of a `Raft` class proved to compute those functions, and
  a cluster of servers over a network that may lose, delay, reorder and duplicate messages;
- the key/value server (`kvraft/server.go`): the apply loop and the `Get` and `PutAppend` handlers,
  as functions and as methods of a `RaftKV` class;
- the client (`raftclient/client/client.go`): the commands it prints and its `PutAppend` and `Get`
  retry loops.

`dafny verify dfyconfig.toml` checks the whole project.

## How the model is built

| file | content |
|---|---|
| `RaftTypes`, `RaftHandlers` | entries, RPC arguments, one server's state; the step functions, and the conditions under which the Go code does not panic |
| `RaftServer` | the `Raft` class: the same steps with their loops over mutable fields |
| `RaftSteps`, `LogLemmas` | one server as a state machine; what the merge and batch loops do to a well-numbered log |
| `ApplyStream`, `VoteDurability` | one server over any run of events: applied stream, conservation of started commands, crashes and restarts |
| `HeartBeatMerge`, `CatchUp` | one heartbeat against a matching leader log, and exactly when it applies only what the leader has; repeated rounds until a follower is caught up |
| `Cluster` | configurations, steps, runs and clean runs |
| `ElectionSafety`, `LogMatching`, `Tenure`, `FailOver` | the cluster theorems |
| `HandlerLaws`, `KvLaws`, `ClerkScan` | what one handler leaves for the next: stepping down, queues, next indices, ballots; contexts and cells; which server a client asks next |
| `Electability`, `CommitProgress` | elections can succeed, and what half the peers hold is committed: the other half of election safety and of commitment |
| `NoPanic`, `CleanPanics` | which steps runs leave out by asking for bounds, and a clean run to a point where some are |
| `SentCommits`, `StartedEntries` | where the commit index a leader announces lies; what an index and term returned by `Start` stand for |
| `Reaching`, `StaleWinner`, `DirtyRun`, `DivergentApply` | concrete runs: the condition in `FailOver` is needed, and what happens when a server flagged leader does not have the term it won |
| `Commands`, `KvServer`, `KvReplay` | command text, the key/value server, its meaning as a replay |
| `Clerk`, `Clients` | the client loops, and a client's run against any number of servers |
| `AckedWrites`, `AnsweredReads` | what an acknowledged write and an answered read mean |
| `EndToEnd` | from the replicated log to the databases, acknowledged writes and answered reads |

Each handler call or goroutine iteration is one atomic step. The network is a set of messages that
only grows; delivery is a step that any message enables at any time, any number of times or never.
Timers are steps that may happen whenever their code could run. The history of a run (votes cast,
elections won, each winner's log, acknowledgements counted) is kept beside the servers and read by
no step.

A run is *clean* when a server flagged leader has as its current term a term it won, an election is
won while its term is still current, jobs are batched by the leader of the jobs' own term, and a
leader sends only arguments of its current term. This is a predicate on runs (`Cluster.CleanRun`);
the steps are the code's. Election safety, the apply stream, conservation, durability and catch-up
do not use it. `DirtyRun.LogMatchingFailsOutsideCleanRuns` is a reachable run outside it in which
two logs differ at a position where their terms agree: a leader that refuses a later candidate takes
over its term but stays flagged leader (`raft/raft.go:170-180`). It breaks the first of these
conditions, on the flag, and shows that one to be needed; no claim is made that each of the other
three is. `DivergentApply.ServersApplyDifferentCommands` goes on from such a leader, and breaks all
but the condition on batches, to two servers that have applied different commands at the same index.

The first fail-over has an exact condition. The next winner's log holds what the old leader
committed if and only if its term is later or nothing was committed: a candidate of an earlier term
whose votes arrive late can still win, and holds nothing. `StaleWinner.EarlierWinnerLacksCommitted`
is a clean run in which that happens.

Safety is half of what the code is for. A majority of which no member leads can elect one of its
members from any point of a clean run (`Electability.MajorityCanElect`); once a leader has counted
what it was told, an index is committed exactly when half the peers hold it or one past it
(`CommitProgress.CommittedExactlyWithQuorum`); a client whose calls keep failing comes to every server
(`ClerkScan.EveryServerIsAsked`); and a write delivered to the server a client asks is acknowledged
by its next calls (`AckedWrites.DeliveredWriteIsAcknowledged`). None of this speaks of time.

A follower that accepts a request applies only entries the leader has, whatever matching log it
holds, if and only if the announced commit index lies within the segment sent
(`HeartBeatMerge.AppliesOnlyLeaderEntriesExactly`). For followers whose terms rise along their log,
as all do in clean runs (`LogMatching.LogsAreAged`), the condition is a little wider
(`HeartBeatMerge.AgedFollowersApplyOnlyLeaderEntriesExactly`). Every request of a single-leader
tenure stays within its segment (`SentCommits.RequestsApplyOnlyLeaderEntries`). One that does not
needs a sender whose log was cut below its own commit index;
`DivergentApply.ServersApplyDifferentCommands` reaches one.

Messages may also find a server in a state its code does not expect. In a single-leader tenure no
step that comes due indexes or slices past its bounds (`NoPanic.TenureNeverPanics`). In a clean run
with more tenures three kinds of step can: a batch of jobs left from an earlier tenure, a send of an
argument left from one, and the reading of a late rejection. `NoPanic.DueStepsWithinBounds` says
exactly when, and `CleanPanics.DueStepsGoOutOfBounds` reaches a point where all three do.

`Start` returns the index the command will have if it is ever committed (`raft/raft.go:367-368`).
That holds in every clean run: `StartedEntries.StartedEntryIsTheCommand`.

Some of what the key/value code does may surprise. The first phase of `PutAppend` replies with index
0 the first time a context is seen, because the index from `Agree` is bound in an inner scope
(`kvraft/server.go:138-153`); the client then asks again. A `Get` whose index ends up carrying
another command is answered with "No key" even if its key is bound (`kvraft/server.go:103-110`):
`KvReplay.BoundKeyCanBeMissed` reaches such a state, and `KvReplay.ReadsAreExact` states exactly when
it happens. A key with ":::" and no "<<>>" is read as the
part before ":::"; those keys are exactly the ones whose reads are not answered as the replay says.
A value that contains "<<>>" is read up to it, and two appends without it can store one
(`KvReplay.AppendedSeparatorCutsRead`).

## Model

| member | source | states |
|---|---|---|
| RaftServer.Raft.Make | raft/raft.go:417-461 | a new server is the fresh one, or the one restored from what the persister holds |
| RaftServer.Raft.Persist | raft/raft.go:110-128 | the disk holds the encoding of term, vote and log |
| RaftServer.Raft.ReadPersist | raft/raft.go:133-153 | term, vote and log are the decoded ones and logidx is the last position |
| RaftServer.Raft.RequestVote | raft/raft.go:158-191 | the handler's state change and reply are those of the vote step, and the new state is on disk |
| RaftServer.Raft.RollBack | raft/raft.go:253-263 | the loop drops exactly the run of the conflicting term that ends at PrevLog |
| RaftServer.Raft.MergeEntries | raft/raft.go:271-283 | the loop computes the merge, or reports a gap and changes nothing |
| RaftServer.Raft.AdvanceCommit | raft/raft.go:286-314 | the follower commits and applies up to the smaller of its last index and the leader's commit index |
| RaftServer.Raft.HeartBeat | raft/raft.go:229-334 | the handler's state change and reply are those of the heartbeat step, and the new state is on disk |
| RaftServer.Raft.ApplyAll | raft/raft.go:302-311 | one apply call per entry, in order |
| RaftServer.Raft.Start | raft/raft.go:372-393 | a leader takes the next index and queues the command; any other server answers zeros |
| RaftServer.Raft.Tick | raft/raft.go:485-503 | an empty argument is queued for every other peer whose queue is empty |
| RaftServer.Raft.CollectBatch | raft/raft.go:519-538 | the loop takes up to 30 jobs off the queue into the slots their indices name |
| RaftServer.Raft.AppendEntries | raft/raft.go:557-565 | the loop appends from the first entry that fits the end of the log |
| RaftServer.Raft.Batch | raft/raft.go:519-566 | one batch: queues drained, arguments queued if leader, log appended, state on disk |
| RaftServer.Raft.UpdateCommit | raft/raft.go:587-628 | one acknowledged index is counted, and committed when half the peers were counted; only then the disk changes |
| RaftServer.Raft.Send | raft/raft.go:646-664 | a leader's argument goes out extended back to the peer's nextIndex; a non-leader drops it |
| RaftServer.Raft.ReceiveAppendReply | raft/raft.go:677-713 | matchIndex, nextIndex with its back-off loop, commit channel and step-down after a reply |
| RaftServer.Raft.StartElection | raft/raft.go:752-765 | a new term, the own vote and an empty tally; the disk is not touched |
| RaftServer.Raft.ReceiveVoteReply | raft/raft.go:825-846 | a reply becomes a ballot, and a refusal of a higher term makes the server step down |
| RaftServer.Raft.BecomeLeader | raft/raft.go:792-811 | first heartbeats queued, nextIndex at the end of the log, matchIndex cleared |
| RaftServer.Raft.CountVote | raft/raft.go:783-815 | one ballot counted; a refusal ends the tally and half the peers' votes win it |
| RaftHandlers.RunStart | raft/raft.go:255-260 | the position found is the nearest one before PrevLog that is not of the conflicting term, or 0 |
| RaftHandlers.BackOff | raft/raft.go:702-706 | the position found is the nearest one at or before the reply's whose term is older than the message's |
| LogLemmas.MergeKeepsGoodLog | raft/raft.go:271-283 | merging a numbered message never reports a gap, keeps entries at their indices and what was before them |
| LogLemmas.MergeStopsAtFirst | raft/raft.go:271-283 | for any message: the loop stops at the first entry it does not hold already, which comes in with all that follow it, or is a gap |
| LogLemmas.AppendedFromFirstFit | raft/raft.go:557-565 | a batch's entries come in from the first that fits the end of the log |
| LogLemmas.SlotsAreJobs | raft/raft.go:530-538 | jobs numbered from the end of the log fill slot k with job k, in range and each once |
| LogLemmas.SlotsByIndex | raft/raft.go:527-538 | for any jobs: a slot holds the last job whose index names it, slot 0 the first job if no other names it, any other slot nothing |
| LogLemmas.BatchAppendsJobs | raft/raft.go:519-565 | a batch that continues the log panics on no slot and is appended whole and in order |
| LogLemmas.ContiguousHeartBeatIsSafe | raft/raft.go:249-301 | under a numbered message every index and slice of the handler is in bounds |
| ApplyStream.HeartBeatKeepsStream | raft/raft.go:287-313 | a heartbeat keeps the applied indices gapless and takes nothing applied back |
| ApplyStream.HeartBeatCommits | raft/raft.go:286-314 | an accepted message commits and applies as far as the log and the leader's commit index both reach, if that is further than before; a rejected one applies nothing |
| ApplyStream.CommitKeepsStream | raft/raft.go:587-627 | the commit updater keeps the applied indices gapless and takes nothing applied back |
| ApplyStream.AppliedIndicesAreConsecutive | raft/raft.go:286-313 | over any mix of events the applied indices are 1 to lastApplied, commitIdx is lastApplied, and the stream only grows |
| ApplyStream.BatchMovesJobs | raft/raft.go:519-565 | a batch moves at least one job from queue to log and neither loses nor reorders any |
| ApplyStream.StartedCommandsAreConserved | raft/raft.go:519-565 | while no heartbeat is accepted, log and queue are the old ones followed by all started commands in order |
| ApplyStream.StartedCommandsLandWhereTold | raft/raft.go:359-393 | each index Start returned is where its command lands |
| VoteDurability.NoSecondGrant | raft/raft.go:158-191 | after a grant in a term, no later step, crash or restart lets the server grant in that term or below |
| VoteDurability.GrantedTermsIncrease | raft/raft.go:110-191 | the terms of the votes a server grants to peers strictly increase across crashes and restarts |
| VoteDurability.DiskStaysBehind | raft/raft.go:110-153 | whatever a server has been through, its disk is not ahead of its memory and a restart from it has a log |
| VoteDurability.SelfVoteSurvivesExactlyIfPersisted | raft/raft.go:752-768 | after an election start, any steps and a crash, the server can vote for a peer in the term of its own candidacy if and only if none of those steps persisted |
| VoteDurability.SelfVoteIsNotDurable | raft/raft.go:752-768 | the shortest run in which a candidate that crashed votes for a peer in the term of its own candidacy |
| VoteDurability.RestartsAreWellFormed | raft/raft.go:133-153 | a restored server has a well-numbered log, logidx at its last entry and an apply stream that begins anew |
| HeartBeatMerge.MergeReconciles | raft/raft.go:271-283 | on a matching log the merge loop yields the follower's own log if it already agrees, and the leader's entries otherwise |
| HeartBeatMerge.ReconciledKeepsAgreement | raft/raft.go:271-283 | no entry that agrees with the leader's is dropped or moved |
| HeartBeatMerge.ReconciledMatches | raft/raft.go:271-283 | the merged log still matches the leader's |
| HeartBeatMerge.HeartBeatReconciles | raft/raft.go:249-333 | success happens exactly when the follower agrees through PrevLog and leaves the reconciled log; a rejection leaves a non-empty shorter prefix |
| HeartBeatMerge.AppliesOnlyLeaderEntries | raft/raft.go:286-313 | a commit index within the segment applies only the leader's entries |
| HeartBeatMerge.AppliesOnlyLeaderEntriesExactly | raft/raft.go:249-314 | every follower with a matching log that accepts the message applies only the leader's entries if and only if the commit index lies within the segment |
| HeartBeatMerge.AgedFollowersApplyOnlyLeaderEntriesExactly | raft/raft.go:249-314 | the same for followers whose terms rise and stay within their own: if and only if the commit index lies within the segment, or within the leader's log when what follows the segment can only be of the message's term |
| HeartBeatMerge.StaleTailIsApplied | raft/raft.go:284-301 | a follower with a stale entry at or past the end of the segment, and a commit index that reaches it, applies that entry |
| SentCommits.RequestsApplyOnlyLeaderEntries | raft/raft.go:485-502 | every request of a tenure, when accepted, makes any follower with a matching log apply only the leader's entries |
| DivergentApply.ServersApplyDifferentCommands | raft/raft.go:783-815 | a reachable run, not clean, in which a request carries a commit index past its segment and two servers apply different commands at index 1 |
| CatchUp.RoundMakesProgress | raft/raft.go:655-711 | a round either leaves the follower holding the leader's log or strictly lowers the next PrevLog index |
| CatchUp.CatchUpTerminates | raft/raft.go:655-711 | at most PrevLog.Index + 1 rounds bring a matching follower to the leader's whole log |
| HandlerLaws.RejectionSilences | raft/raft.go:693-697 | after a rejection of a later term the server is in that term, takes no commands and sends nothing |
| HandlerLaws.RefusalSilences | raft/raft.go:834-845 | so it is after a refused vote of a later term |
| HandlerLaws.HeartBeatSilences | raft/raft.go:242-247 | so it is after a heartbeat of its term or a later one, which leaves vote, jobs, queues and elections |
| HandlerLaws.ConflictDropsRun | raft/raft.go:253-269 | with another term at PrevLog's position the log loses exactly the run of that term and what follows, and the answer names the entry before it |
| HandlerLaws.ShortLogIsNamed | raft/raft.go:249-269 | a log that ends before PrevLog stays and is named by its last entry |
| HandlerLaws.StaleHeartBeatIsIgnored | raft/raft.go:230-240 | a heartbeat of an earlier term changes nothing and is told the later one |
| HandlerLaws.LeaderTakesCommands | raft/raft.go:372-393 | a leader queues the command at the next index in its term |
| HandlerLaws.TickFillsIdleQueues | raft/raft.go:485-503 | after a tick each other peer's queue is what it was, or announces the end of the log and the commit index if it was empty |
| HandlerLaws.BatchIsAnnounced | raft/raft.go:519-566 | a batch takes up to thirty jobs into the log, and a leader alone announces them to every other peer |
| HandlerLaws.SendTakesHead | raft/raft.go:646-664 | a send takes the head of the queue, and what a leader sends of it begins at or before the peer's next index and ends where it did |
| HandlerLaws.NextHeartBeatFollowsAnswer | raft/raft.go:680-689 | after a peer has acknowledged a position the next heartbeat carries exactly what follows it |
| HandlerLaws.NextHeartBeatFollowsRejection | raft/raft.go:698-711 | after a rejection the next heartbeat starts where the peer's log ends, or at the nearest position before it that is older than the message |
| HandlerLaws.CandidateStartsFresh | raft/raft.go:752-781 | a candidate has a new term, its own vote and an election with nothing counted |
| HandlerLaws.AnswerIsOneBallot | raft/raft.go:825-846 | each answer is one ballot |
| HandlerLaws.ElectionsEnd | raft/raft.go:783-815 | a refusal, a win or the timer ends an election; any other vote leaves it open |
| HandlerLaws.WinnerAnnouncesItself | raft/raft.go:791-811 | a winner takes commands, has announced itself to every other peer and begins each at the end of its log |
| ElectionSafety.MajoritiesMeet | raft/raft.go:791-791 | two majorities of the cluster share a server |
| ElectionSafety.EventKeeps | raft/raft.go:165-180 | no event lowers a term or clears a vote |
| ElectionSafety.VoteReplyKeepsServer | raft/raft.go:825-846 | ballots waiting and counted never exceed the distinct peers that voted |
| ElectionSafety.WinnerHasMajority | raft/raft.go:783-793 | a winner's voters are a majority |
| ElectionSafety.StepKeepsElectionInv | raft/raft.go:158-191 | every step keeps the election invariant |
| ElectionSafety.OneVotePerTerm | raft/raft.go:165-177 | no server casts two votes in one term, in any run |
| ElectionSafety.OneWinnerPerTerm | raft/raft.go:783-815 | no term is won by two servers, for any cluster size and any run |
| Electability.GrantedExactly | raft/raft.go:158-191 | a vote is granted if and only if the term is new to the voter or it has not voted in it, and the candidate's last entry is of a later term, or of the same term and not earlier; and what the handler leaves and replies either way |
| Electability.VotesFollowLogs | raft/raft.go:172-177 | in a clean run a vote at a new term goes exactly to a log that ends in a later term or has all of the voter's entries |
| Electability.SomeoneIsElectable | raft/raft.go:172-177 | of any servers one would be voted for by all of them |
| Electability.MajorityCanElect | raft/raft.go:752-815 | from any point of a clean run of two servers or more, a majority of which no member leads can elect one of its members, without losing a log entry |
| LogMatching.PinnedLogsMatch | raft/raft.go:253-284 | logs pinned to the same leader logs match |
| LogMatching.ExtendedIsSegment | raft/raft.go:655-660 | the send-time extension of an argument is a stretch of the leader's log |
| LogMatching.HeartBeatKeepsServer | raft/raft.go:229-334 | a heartbeat of another server's term keeps the follower's log pinned |
| LogMatching.BatchKeepsServer | raft/raft.go:519-565 | a clean batch extends the log of the leader's own term |
| LogMatching.WinKeepsServer | raft/raft.go:791-814 | a clean win makes the winner's log the log of the term |
| LogMatching.StepKeepsLogInv | raft/raft.go:485-713 | every clean step keeps the log invariant |
| LogMatching.LogsMatch | raft/raft.go:253-284 | Log Matching between any two servers at any point of any clean run |
| LogMatching.StreamsAreGapless | raft/raft.go:287-313 | in every clean run every server's apply stream carries 1 to lastApplied |
| NoPanic.DueStepsWithinBounds | raft/raft.go:485-846 | at any point of a clean run, exactly when a step that is due stays within bounds: a batch if its jobs fit its slots, a send if it is taken from the log, the reading of an answer if it looks back, if at all, within the log, any other step always; clean batches and sends do |
| NoPanic.DueBatchOfOneTenure | raft/raft.go:519-538 | a due batch of one tenure's jobs, at any server of a clean run, is in range if and only if it is of one job or begins at the end of the log or one before |
| NoPanic.TenureNeverPanics | raft/raft.go:485-846 | in a single-leader tenure every step that is due, clean or not, stays within bounds |
| CleanPanics.DueStepsGoOutOfBounds | raft/raft.go:529-541 | a clean run reaches a configuration in which a batch, a send and an answer are due at one server and each goes out of bounds |
| DirtyRun.LogMatchingFailsOutsideCleanRuns | raft/raft.go:170-180 | a reachable configuration outside clean runs in which Log Matching fails |
| LogMatching.LogsAreAged | raft/raft.go:253-284 | in every clean run the terms along each log never fall, and each request is a stretch of such a log of its own term |
| StartedEntries.StartedEntryIsTheCommand | raft/raft.go:359-393 | in every clean run an entry with an index and term that Start returned, in any log at any later point, is the command started |
| Tenure.SoleWinnerPinsLogs | raft/raft.go:253-284 | with one winner so far every log is a prefix of the winner's |
| Tenure.HeartBeatExtends | raft/raft.go:249-333 | within the tenure a heartbeat only extends the follower's log along the leader's |
| Tenure.AcknowledgementIsFresh | raft/raft.go:680-688 | matchIndex lets a follower acknowledge an index at most once |
| Tenure.StepKeepsCounts | raft/raft.go:594-600 | what is counted for an index never exceeds its distinct ackers |
| Tenure.CommitNeedsQuorum | raft/raft.go:600-624 | the leader commits only what half the peers acknowledged |
| CommitProgress.CountedQuorumIsCommitted | raft/raft.go:594-624 | in a single-leader tenure of two servers or more, what half the peers acknowledged and the leader has counted is committed |
| CommitProgress.CommittedExactlyWithQuorum | raft/raft.go:587-627 | when nothing waits to be counted, an index is committed if and only if half the peers acknowledged it or one past it |
| Tenure.CommittedEntriesAreHeld | raft/raft.go:587-627 | every entry up to the leader's commit index is held by a majority |
| Tenure.StepKeepsTenureInv | raft/raft.go:587-713 | every clean step of the tenure keeps its invariant |
| Tenure.SingleTenureIsSafe | raft/raft.go:587-627 | logs are prefixes of the leader's, committed indices are held by a majority, applied sequences are prefixes of one log |
| FailOver.VoteCoversCommitted | raft/raft.go:172-177 | a member of the commit quorum casts a later vote only with the committed entries in its log |
| FailOver.NewAnswerIsCovered | raft/raft.go:237-240 | a follower that acknowledges has cast no vote for a later term |
| FailOver.LaterWinnerHoldsCommitted | raft/raft.go:172-177 | the winner of a later term holds everything the old leader committed |
| FailOver.NextWinnerHoldsCommitted | raft/raft.go:165-180 | the next winner holds the committed entries if and only if its term is later or none were committed |
| StaleWinner.EarlierWinnerLacksCommitted | raft/raft.go:783-815 | a clean run whose second winner is of an earlier term and lacks a committed entry |
| Commands.SplitThenJoin | kvraft/server.go:346-362 | splitting loses nothing and leaves no separator in a part |
| Commands.UnseparatedYieldsNothing | kvraft/server.go:346-362 | text without the separator parses to nothing |
| Commands.ParseFindsOp | kvraft/server.go:346-353 | the parser finds the operation and the text up to the next ":::" |
| Commands.CommandText | raftclient/client/client.go:121-126 | the text of the commands on the wire |
| Commands.KeyValueRoundTrip | kvraft/server.go:355-362 | splitting at "<<>>" recovers key and value if and only if neither contains it |
| Commands.CommandRoundTrip | raftclient/client/client.go:121-126 | parsing the printed command recovers it if and only if key and value contain no separator |
| Commands.GetCmdRoundTrip | raftclient/client/client.go:52-55 | a printed Get is parsed as a read of its key exactly when the key has no ":::" |
| KvServer.RaftKV.Apply | kvraft/server.go:233-341 | one iteration of the apply loop is the apply step |
| KvServer.RaftKV.PutAppend | kvraft/server.go:114-163 | the handler up to its reply or its wait is the begin step |
| KvServer.RaftKV.Get | kvraft/server.go:57-90 | the handler up to its reply or its wait is the begin step |
| KvServer.RaftKV.FinishPutAppendCall | kvraft/server.go:166-177 | OK exactly on the caller's own command, and the cell keeps its value |
| KvServer.RaftKV.FinishGetCall | kvraft/server.go:98-110 | the reply is read off the cell, and the cell keeps its value |
| KvLaws.FirstDeliveryRecords | kvraft/server.go:237-324 | a first delivery is logged, executed, known by its context and answered in its cell, and nothing else changes |
| KvLaws.AnswersByOperation | kvraft/server.go:251-324 | what a first delivery leaves in its cell, by operation |
| KvLaws.RedeliveryAnswersWaiters | kvraft/server.go:326-338 | a redelivery answers whoever waits on an empty cell and changes nothing else |
| KvLaws.OnlyWritesWrite | kvraft/server.go:251-324 | reads and text that is no operation leave the database alone |
| KvLaws.WriteWithoutSeparator | kvraft/server.go:355-362 | a write whose text has no "<<>>" stores or appends nothing under the empty key |
| KvLaws.OthersNameWrongLeader | kvraft/server.go:59-72 | a server that does not lead says so and changes nothing |
| KvLaws.NothingAgreedChangesNothing | kvraft/server.go:138-153 | without agreement a leader's answer is empty; a known context is answered with its index without asking |
| KvLaws.WaitersHaveCells | kvraft/server.go:81-90 | a handler that waits has a cell, empty unless it was full before |
| KvLaws.WaitingWriteIsAnswered | kvraft/server.go:155-177 | a write that waits when its command is delivered is answered OK |
| KvReplay.FirstDeliveryKeepsInv | kvraft/server.go:237-324 | a first delivery executes its command and leaves its answer in an empty cell |
| KvReplay.RedeliveryKeepsInv | kvraft/server.go:326-336 | a redelivery never changes an answer |
| KvReplay.DatabaseIsReplay | kvraft/server.go:233-341 | the database is the replay of first deliveries, for any stream and any handler calls between |
| KvReplay.ReplayFromStartChangesNothing | kvraft/server.go:326-336 | delivering again what was delivered changes nothing |
| KvReplay.AnswersAreStable | kvraft/server.go:98-101 | a full cell and the replay it was computed from never change |
| KvReplay.ReadsArePointInTime | kvraft/server.go:297-323 | a read is OK exactly when its key was bound in the replay before its index, with that value exactly when it has no "<<>>" |
| KvReplay.ReadsAreExactIffReadable | kvraft/server.go:98-110 | the reply to a read of the key is what the replay says, in every state, if and only if the key has no ":::" or has a "<<>>" |
| KvReplay.BrokenKeyReadsItsHead | kvraft/server.go:297-323 | in a reachable state any other key is read as the part before its ":::" |
| KvReplay.AppendedSeparatorCutsRead | kvraft/server.go:271-323 | two appends of values without "<<>>" store one that has it, and the read returns only what comes before |
| KvReplay.BoundKeyCanBeMissed | kvraft/server.go:103-110 | a reachable state in which a read of a bound key is answered ErrNoKey |
| KvReplay.ReadsAreExact | kvraft/server.go:98-110 | for such a key, the reply is OK with the bound value exactly when the index carries the read's own words and the key was bound before it, and ErrNoKey otherwise, whatever command holds the index |
| KvReplay.StoredKeysAreWhole | kvraft/server.go:251-296 | no key ever stored contains "<<>>" |
| KvReplay.ReadOfBrokenKeyTakesText | kvraft/server.go:97-110 | a key with ":::" can be answered OK with text of a longer key's read |
| KvReplay.OkReadComesFromGet | kvraft/server.go:103-110 | an OK read is answered by a Get of the same words logged at its index |
| KvReplay.FullCellNamesAppliedWrite | kvraft/server.go:264-335 | a write found in its cell is the command applied at that index |
| KvReplay.WritesAreExact | kvraft/server.go:166-177 | a full cell answers a write OK if and only if exactly its command was applied at the index it names |
| KvReplay.SecondCallLearnsIndex | kvraft/server.go:138-153 | the first call of a context records the agreed index, and the next learns it |
| Clerk.Clerk.PutAppend | raftclient/client/client.go:127-192 | an operation other than Put and Append returns at once; otherwise the nested retry loops compute the fold of the call results |
| Clerk.Clerk.Get | raftclient/client/client.go:66-99 | the nested retry loops compute the fold of the call results, with the scan that goes on past a leader that has no answer |
| ClerkScan.EveryServerIsAsked | raftclient/client/client.go:127-192 | a write whose calls keep failing comes to each of n servers within n + 1 calls |
| ClerkScan.AnswersMoveTheWrite | raftclient/client/client.go:138-190 | what a lost call, a wrong leader and each answer of a leader do to the loop |
| ClerkScan.EveryServerIsAskedByGet | raftclient/client/client.go:66-99 | so does a read |
| ClerkScan.AnswersEndTheRead | raftclient/client/client.go:66-99 | a read returns exactly on an answer, and remembers who gave it |
| AckedWrites.StepKeepsSystemInv | raftclient/client/client.go:127-192 | every step of client and servers keeps the claim behind an acknowledgement |
| AckedWrites.AcknowledgedWriteWasApplied | kvraft/server.go:155-177 | when PutAppend returns, some server applied exactly its command at its index and its replay includes it |
| AckedWrites.ReturnsExactlyOnOwnCommand | raftclient/client/client.go:174-186 | on a full cell the client returns if and only if the server has its command at its index, and otherwise starts over |
| AckedWrites.RecordedWriteIsAcknowledged | raftclient/client/client.go:127-192 | a client that asks a server that has recorded its write is acknowledged by its second call there |
| AckedWrites.DeliveredWriteIsAcknowledged | raftclient/client/client.go:127-192 | once its command is delivered at the server it asks, a client's next calls acknowledge it at that index |
| AnsweredReads.StepKeepsSystemInv | raftclient/client/client.go:66-99 | every step of client and servers keeps the claim behind an answered read |
| AnsweredReads.AnsweredReadIsPointInTime | kvraft/server.go:57-110 | when Get returns a value or "No key", some server's replay says exactly that at the index waited for, for any key without ":::" or with "<<>>" |
| AnsweredReads.AnsweredReadsArePointInTimeIffReadable | raftclient/client/client.go:66-99 | that holds in every run of the client if and only if the key is such a key |
| EndToEnd.AcknowledgedWriteIsCommitted | raftclient/client/client.go:127-192 | in a single-leader tenure an acknowledged write is the committed entry at the client's index of the leader's log, held by a majority, whatever apply calls were lost, repeated or reordered |
| EndToEnd.AcknowledgedWriteSurvivesFailOver | raft/raft.go:172-177 | it is in the next winner's log at that index if and only if the winner's term is later |
| EndToEnd.AnsweredReadIsTheLogs | kvraft/server.go:297-323 | in a single-leader tenure, when apply calls arrive in order, an answered read, from whichever server, is what the leader's committed log says before the index it waited for |
| EndToEnd.LostApplyCallLosesWrite | raft/raft.go:302-311 | when the apply call of a write is lost, a later read misses the write, for any key and value without separators |
| EndToEnd.FedServerFollowsLog | kvraft/server.go:233-341 | a server fed in order, with redelivery, has executed the operations of a prefix of the log in order |
| EndToEnd.ReplicasReplayTheLeadersLog | kvraft/server.go:233-341 | in a single-leader tenure every database is the replay of a prefix of the leader's log |

## Left out

- Leader Completeness over any number of terms, and a single execution of each command: the code enforces neither (the commit rule has no current-term check, `raft/raft.go:588`; the apply loop does not look at the context of a command it executes, `kvraft/server.go:248-250`).
- LogMatching.LogsMatch: states Log Matching for clean runs only, because it fails outside them.
- Tenure.SingleTenureIsSafe: speaks of clean runs from a fresh cluster with one winner so far; later tenures reuse the commit tracker (`raft/raft.go:578`), so the count argument does not carry over.
- RaftServer.Raft.Send: treats the extended entries as a value; the write into spare capacity that `append` on a slice of the log allows (`raft/raft.go:657`) and slicing between length and capacity are not modelled.
- RaftServer.Raft.ReceiveAppendReply: the wait for the reply and its timeout are not modelled; a reply may be handled at any time and more than once.
- VoteDurability.GrantedTermsIncrease: uses any serialisation that round-trips; the gob encoding is not modelled.
- Clerk.Clerk.PutAppend: runs over a finite list of call results, since the source's loop need not end, and needs at least one server.
- Clerk.Clerk.Get: likewise.
- AnsweredReads.AnsweredReadIsPointInTime: holds for the keys that `AnsweredReads.AnsweredReadsArePointInTimeIffReadable` shows to be the only ones.
- EndToEnd.AcknowledgedWriteIsCommitted: a key/value server is fed by its own Raft server and does not restart; the order of a write and a later read in real time is not part of it.
- EndToEnd.AnsweredReadIsTheLogs: needs every apply call to arrive; `EndToEnd.LostApplyCallLosesWrite` shows what a lost one does.
- Cluster runs take only steps in which the code does not panic (`NoPanic` says which that leaves out), and no server crashes in them; crashes are in `VoteDurability`.
- Data races inside a handler, torn updates between atomics, channel capacities and blocking sends.
- Time: timers, tickers, random timeouts and poll rates. That an election or a write can succeed is stated as a run that exists; nothing is claimed about when, or that it will.
- 32-bit wrap-around of terms and indices.
- Metrics, HTTP, WebSocket, JSON and controller code, the command-line programs, snapshots and membership change.
