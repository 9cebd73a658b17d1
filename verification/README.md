# Crystal: a verified model

Crystal is a replicated key-value store built on Raft (Ongaro and Ousterhout, "In Search of an
Understandable Consensus Algorithm"), with pre-vote, ReadIndex reads, snapshots, a write-ahead log
and client sessions. This project models its consensus core in Dafny 4.11 and proves what that core
is for. `dafny verify dfyconfig.toml` checks everything.

## How the project is organised

**The cluster as a state machine.** `Consensus` holds one member's transitions as functions,
`Cluster` the steps of a whole cluster: timeouts, deliveries, client writes, ticks, applying,
compacting, reads, giving up, stepping down, crashing. Messages are never removed from the network,
so loss, duplication and reordering are all runs. A failed save of term and vote may or may not have
reached the disk. A `Run` is any sequence of steps from first boot under one valid configuration,
simple or joint, with the states in between.

A ledger (`Ledger`) records votes, campaigns, each term's leader log, acknowledgements and commits.
It is history: no member reads it, and the invariant shows that wherever a step looks up its own term
there, the term is present. `Invariant` says what every reachable state satisfies. `Frames`, `Elections`,
`Ballots`, `Replication`, `Receivers`, `Deliveries`, `Committing` and `Reads` prove that each kind of
step keeps it; `Runs` puts them together. `Safety`, `Linearizable` and `PreVoteGuard` draw the
theorems, each about every run or about any two points of one. `Decisions` says in numbers what each
decision comes out as, so that none is safe merely by refusing, and `Progress` and `Serving` that nothing
keeps a cluster from working: from every reachable state somebody can be elected, and a member whose log
is not compacted can have a write committed and acknowledged.

**The components.** `Membership` (quorum arithmetic), `HeadCount` (where counting heads is the quorum
rule), `RaftLog` and `LogRuns` (the positional cache as a plain sequence), `FailedWrites` and `FileRuns`
(log writes that stop half-way), `Crashes` and `Drift` (installs that do, and what becomes of the machine),
`Wal` (framing and recovery of bytes), `Store`, `KeyValue` and `Dedup` (the machine, what it does to each
key, and its session table), `Backtrack` and `Stalls` (finding where two logs agree), `Waiters` (the client
lists).

**The objects.** Code that updates fields in place is a class here too, each method proved against
the function the cluster uses: `DurableLog.RaftLog`, `NodeObject.RaftNode`, `Store.MemoryStateMachine`,
`Waiters.WaiterList`, and the loops in `EngineLoops` and `Backtrack`.

**What the code gets wrong.** Where a promised property fails, the code is modelled as it is, one lemma
gives the failing input and another says exactly when the property holds:

- an append of the term's no-op that fails leaves reads without a floor (`StaleRead`): a run of seven
  steps on one server answers a read from an empty machine after a write was acknowledged. A leader pins
  its reads at or above the log it was elected with if and only if its no-op is in the log or no entry of
  an earlier term lies above its commit index (`Reads.PinnedExactlyWhenFloored`);
- `readSatisfied` counts heads against the number of voters. A learner can inflate the count and a
  transition's outgoing members are ignored (`HeadCount.LearnersMiscount`, `HeadCount.TransitionMiscounts`).
  Outside a transition the count is sound if and only if the leader votes and there are no learners or no
  other voters; `HeadCount.HeadCountExactlyWhen` covers every configuration;
- `ResetToSnapshot` keeps a stale next index when it discards a longer log (`RaftLog.ResetLosesAlignment`;
  exactly when: `RaftLog.ResetAlignedExactlyWhen`), and `AppendEntriesToLog` does when the disk refuses the
  first entry after a conflict was cut (`RaftLog.RefusedBatchLosesAlignment`; exactly when:
  `RaftLog.SpliceAlignedExactlyWhen`). Nothing else does (`LogRuns.StrandedExactlyWhen`). A leader that
  appends in that state puts the entry into another index's slot: over every sequence of operations the log
  stands for what was meant if and only if no append was made in it (`LogRuns.StandsExactlyWhen`);
- `RestoreOffset` does not compare terms at the boundary (`RaftLog.CrashDuringInstallKeepsStaleSuffix`;
  exactly when: `RaftLog.CrashDuringInstall`, and for the whole member `Crashes.CrashInsideInstall`);
- `HandleInstallSnapshot` replaces the machine by a snapshot older than what it has applied, or by one
  that then fails to be persisted (`SnapshotHazards`). The sweep counter tells two prefixes apart unless
  their lengths differ by a multiple of a thousand; apart from that case a completed install keeps machine
  and applied index in step if and only if the snapshot is not behind, a failed one if and only if it is of
  the very index applied. A restart straight after repairs both (`Crashes.RestartRepairs`), but compaction
  writes the wrong machine to disk and then it lasts (`Drift.StaleInstallLasts`). Over a member's whole life
  the machine is in step if and only if no such gap is open, and after a restart if and only if none was when
  the snapshot was written (`Drift.InStepExactlyWhen`);
- a session swept before a late retry lets a delete run twice (`Dedup.LateRetryDestroysWrite`). The swept
  table recognises every retransmission of a log if and only if each comes before a sweep whose cutoff
  lies above its session's last use (`Dedup.DedupExactlyWhen`);
- a batch whose sync failed is acknowledged on redelivery without any sync, exactly when all of it had been
  written (`FailedWrites.RedeliveryAfterFailedSync`);
- a leader's entry whose sync failed stays in the file while its index is given out again. Without a snapshot
  such a file never reopens as the cache was; behind a snapshot it opens with the refused entry in place of
  the acknowledged one (`FailedWrites.RefusedEntryComesBack`), unless the snapshot covers that index or the
  two entries are equal (`FailedWrites.RestartBehindSnapshotExactlyWhen`);
- a conflict is cut in memory before the file is rewritten. If the rewrite fails, what replaces the cut entries
  is appended behind them, and after a restart the replaced entry is back (`FailedWrites.ReplacedEntryComesBack`),
  unless the snapshot covers it or its replacement is the same (`FailedWrites.RestartUncutExactlyWhen`).
  Over every sequence of operations with every write failing or not, `FileRuns.RestartGivesBackExactlyWhen`
  says what a restart comes back with;
- a follower that has compacted past the leader's next index refuses every probe, although it may hold the
  leader's whole log (`Stalls.StalledForEver`). Replication gets anywhere if and only if the next index is above
  what the follower has compacted or the leader has compacted as far (`Stalls.CatchesUpExactlyWhen`);
- a lone voter with learners is a majority by itself but leads only after a peer has answered, so never while
  its learners are down (`Decisions.LoneVoterWaits`). A timeout wins at once if and only if there are no peers
  (`Decisions.WinsAtOnceExactlyWhen`).

docs/RAFT.md lists pre-vote and the joint-quorum arithmetic as left out of the implementation; the
code has both, and the model follows the code.

## Assumptions

These are the places where the code does not hold one lock across what the model takes as one step.

- A leader's append (role check, term, append) is one step, for client writes and for the no-op, and
  happens only while the log's next index is the one just past its end.
- A campaign (new term and self-vote, then the log's last index and term for the requests) is one step.
- Building a request is one step of a leader in its own term, and a reply is consumed only in the
  term that sent the request.
- The leader branch of the tick is one step; one applied entry is one step and does not interleave
  with a snapshot install.
- A snapshot newer than the boundary is installed only if it is not behind the last applied index, and
  restoring, persisting and cutting the log happen together or not at all.
- All server ids are positive. `Validate` checks this for voters only.
- In the cluster, rewriting the log file succeeds, a failed write of an entry leaves the file as it was,
  and a batch whose sync failed is durable all the same. `DurableLog` has the other outcomes: an entry
  written but not synced, a file not rewritten. `FailedWrites` and `FileRuns` say when they matter.

## Model

| member | source | states |
|---|---|---|
| Safety.OneDecidedLog | internal/raft/node.go:284-489 | at any two points of any run there is one decided log, extended from the first point to the second, and every member's committed entries, state machine, snapshot and every snapshot ever shipped are exactly what that log says |
| Safety.StateMachineSafety | internal/engine/engine.go:515-541 | no two members at any two moments hold different committed entries at one index; members that have applied equally far hold equal machines |
| Safety.LeadersAreComplete | internal/raft/node.go:299-309 | what was committed in a term is held by every leader of that or a later term, at every later moment |
| Safety.LeadersHoldMembersCommits | internal/raft/node.go:299-309 | the same for whatever a member's commit index covers |
| Safety.ElectionSafety | internal/raft/node.go:554-684 | at most one leader per term over a whole run, with crashes and failed saves in between |
| Safety.OneGrantPerTerm | internal/raft/node.go:608-684 | no server ever sends grants to two candidates in one term |
| Safety.LogsMatch | internal/raft/node.go:338-392 | where the terms of two members' logs meet, at any two moments, all entries and boundary terms below agree |
| Safety.TermsNeverDecrease | internal/raft/log.go:200-303 | terms never decrease along a log, from the snapshot boundary to the end |
| Safety.HonestAcks | internal/engine/engine.go:291-355 | a write answered nil stays in the decided log by index, term and command, ever after |
| Safety.TermsWerePolled | internal/engine/engine.go:608-691 | a term is in use, in memory, on disk or in a message that asks or tells, only after a quorum said yes to a poll for it |
| Safety.DecidedGrows | internal/raft/node.go:284-312 | what is decided is never changed, only extended |
| Safety.MemberFollowsDecided | internal/engine/engine.go:515-594 | a member's committed entries, machine and snapshot are those of the decided log of any later history |
| Safety.ShippedFollowsDecided | internal/engine/engine.go:903-952 | a shipped snapshot at S is the replay of the first S decided commands with the true term at S |
| Progress.SomeoneCanLead | internal/engine/engine.go:608-828 | from every reachable state of every cluster some continuation elects a leader, in a term later than any there was |
| Progress.Electable | internal/engine/engine.go:608-828 | any member whose log is not behind those of a quorum can be elected, if somebody else is in that quorum or there is nobody else |
| Serving.WriteCompletes | internal/engine/engine.go:291-355 | from every reachable state a member with an uncompacted log that can be elected can also have any write committed and acknowledged, whatever the others' logs hold |
| Serving.SyncOne | internal/raft/replicator.go:41-83 | round after round a leader that has compacted nothing brings any follower of its term or an earlier one to hold its log |
| Linearizable.ReadsAreLinearizable | internal/engine/quorum.go:354-418 | wherever the head count is sound, a released read's index is at least everything committed anywhere when it was admitted, and any member applied through it serves all of that |
| Linearizable.NothingCommittedAbove | internal/engine/quorum.go:390-418 | the servers confirming a read intersect every later leader's electors, so nothing was committed above its index |
| Linearizable.ReadReleasedExactlyWhen | internal/engine/quorum.go:390-445 | at any point of a run a read waiting at a leader is released with its index if and only if the no-op is committed, the index applied where it is read here, and the heads counted are enough; where the head count is sound, the leader and the peers that answered a later round are a quorum |
| StaleRead.StaleWithoutFloor | internal/engine/engine.go:813-824 | a run in which a read admitted after an acknowledged write is answered from an empty machine, because the no-op was not appended |
| PreVoteGuard.CampaignersWerePolled | internal/engine/engine.go:655-691 | whoever is candidate or leader in a term received a yes for that very term from every other member of a quorum |
| PreVoteGuard.RunGuarded | internal/engine/engine.go:608-691 | every campaign of a run rests on a poll of its own and every yes was sent as a message |
| Consensus.PollPredictsVote | internal/raft/node.go:946-962 | a poll says yes exactly when the real request for that still future term would be granted |
| Decisions.VoteGrantedExactlyWhen | internal/raft/node.go:608-684 | a vote is given if and only if the term is not behind, no live leader is known, nobody else has it, the candidate's last term is later or the same with an index not smaller, and it is durable or on record; the term and vote kept in each case |
| Decisions.PollYesExactlyWhen | internal/raft/node.go:946-962 | a poll says yes if and only if the term is ahead, no live leader is known and the log is not behind |
| Decisions.CampaignsExactlyWhen | internal/engine/engine.go:655-747 | the reply that completes a poll starts the campaign and no other does, with a request to every peer |
| Decisions.WinsAtOnceExactlyWhen | internal/engine/engine.go:608-644 | a timeout makes a member leader if and only if it has no peers; otherwise it polls them all |
| Decisions.LoneVoterWaits | internal/engine/engine.go:608-644 | a majority by itself that does not lead while its learner is down |
| Decisions.ElectedExactlyWhen | internal/engine/engine.go:768-824 | the vote that completes a quorum makes the candidate leader and no other does, with fresh progress for exactly its peers and its no-op logged |
| Decisions.AppendAnsweredExactlyWhen | internal/raft/node.go:338-392 | a batch is stored if and only if its leader is accepted, the log agrees before it and the disk takes what is new; the commit index becomes the greater of the old one and the smaller of leader commit and match, and is unchanged by a refusal |
| Decisions.RefusalHints | internal/raft/log.go:209-238 | a refusal names where a short log ends, or the term in the way and the first index of its run |
| Decisions.InstallAnsweredExactlyWhen | internal/raft/node.go:408-489 | a snapshot is acknowledged if and only if its leader is accepted and it is old news or completes; what becomes of machine, snapshot, indices and log in each case |
| Decisions.ShipmentAnswered | internal/raft/node.go:408-489 | a shipped snapshot that is not stale is taken in and answered with its index and round |
| Decisions.CommitsExactlyWhen | internal/raft/node.go:284-312 | a leader's commit index becomes k if and only if a quorum holds k, none holds k + 1 and the entry at k is of its term; otherwise nothing changes |
| Decisions.WriteAnsweredExactlyWhen | internal/engine/engine.go:338-355 | a waiting write is answered nil if and only if it is of the leader's term and the commit index has reached it |
| Decisions.WriteLogged | internal/engine/engine.go:291-325 | a leader's write goes to the end of its log and its client waits for that very entry |
| Decisions.EntriesRequested | internal/raft/replicator.go:41-63 | a peer is sent the leader's log from its next index on, with the index and term before it |
| Decisions.ReplyBooked | internal/raft/replicator.go:65-83 | a success credits the peer with the match, a refusal lowers its next index to the hint or by one, either is evidence of the round, nobody else's progress changes |
| Decisions.ShipmentBooked | internal/raft/replicator.go:124-149 | a snapshot confirmed credits the peer with its index, one refused with nothing |
| Decisions.SnapshotShippedExactlyWhen | internal/engine/replicator_loop.go:60-90 | the stored snapshot is shipped exactly where the log no longer reaches back far enough |
| Decisions.AppliedExactlyWhen | internal/engine/engine.go:515-541 | the next committed entry is applied if and only if the log holds it and the machine takes it |
| Decisions.CompactedExactlyWhen | internal/engine/engine.go:565-594 | compaction stores the machine under the applied index with its true term exactly when something was applied |
| Decisions.ReadAdmitted | internal/engine/quorum.go:354-387 | an admitted read waits for the greater of no-op and commit index and for rounds started from now on |
| Decisions.LaterTermDeposes | internal/engine/engine.go:768-792 | a reply from a later term ends leadership or candidacy, is adopted with no vote, and lets a leader's clients go |
| Decisions.LostContactDeposes | internal/engine/quorum.go:299-334 | losing contact ends leadership in the same term with the vote kept and every client let go |
| Decisions.RestartKeeps | cmd/crystal/main.go:93-134 | a restart keeps record, log and snapshot, with machine and indices at the snapshot |
| Decisions.SavedExactlyWhen | internal/raft/node.go:919-928 | a record is adopted if and only if it is durable or already in memory, whatever reached the disk |
| Runs.RunOk | internal/engine/engine.go:244-284 | every reachable state satisfies the invariant |
| Runs.NextOk | internal/engine/engine.go:244-284 | every step of every member keeps the invariant and only adds to the history |
| Runs.TwoPoints | internal/engine/engine.go:244-284 | both points of a run satisfy the invariant and the later history extends the earlier |
| Runs.StartOk | internal/raft/node.go:101-134 | first boot satisfies the invariant |
| Ledger.LeaderCompleteness | internal/raft/node.go:656-695 | an entry committed in term t is in the log of the leader of every later term |
| Ledger.VoterCarriesPrefix | internal/raft/node.go:690-695 | a voter holding a committed prefix grants only to a candidate holding it |
| Ledger.CommittedAgree | internal/raft/node.go:299-309 | any two committed prefixes are prefixes of one another |
| Ledger.LogMatching | internal/raft/log.go:200-303 | two grounded logs sharing an index and a term share everything up to it |
| Ledger.GroundedSorted | internal/raft/log.go:200-303 | terms never decrease along a grounded log |
| Elections.TermIsFree | internal/raft/node.go:583-595 | a candidate with a quorum of votes finds its term without a leader |
| Elections.CampaignOk | internal/engine/engine.go:707-747 | spending a term after a carried poll keeps the invariant, whether or not the save succeeds |
| Elections.LeadOk | internal/engine/engine.go:796-828 | promotion with or without its no-op keeps the invariant |
| Elections.PreVoteReqOk | internal/raft/node.go:946-962 | answering a poll keeps the invariant and changes nothing about the member |
| Ballots.StartPreVoteOk | internal/engine/engine.go:608-644 | starting a poll, or winning at once when alone, keeps the invariant |
| Ballots.PreVoteRespOk | internal/engine/engine.go:655-691 | a poll reply keeps the invariant, including the campaign it may complete |
| Ballots.VoteReqStepOk | internal/raft/node.go:608-684 | the vote decision keeps the invariant on every disk outcome |
| Ballots.VoteRespOk | internal/engine/engine.go:768-792 | counting a vote keeps the invariant, including the promotion it may complete |
| Frames.StepsDown | internal/raft/node.go:783-802 | stepping down to any term somebody campaigned for keeps the invariant on every disk outcome |
| Frames.SavedBallot | internal/raft/node.go:919-928 | a save leaves memory and disk unable to contradict a granted vote, whether it succeeds, fails, or fails with the record on disk |
| Replication.ProposeOk | internal/engine/engine.go:291-325 | a leader's append, or one the disk refused, keeps the invariant, and a waiter names the very entry appended |
| Replication.SendAppendOk | internal/raft/replicator.go:41-55 | claiming a round and sending a stretch of the leader's log keeps the invariant |
| Replication.SendSnapshotOk | internal/engine/replicator_loop.go:60-90 | shipping the stored snapshot keeps the invariant and the snapshot is the fold it claims to be |
| Receivers.BatchLands | internal/raft/log.go:200-303 | the receiver on cache and offset is the splice on the complete log; success means the leader's log through the match index is held |
| Receivers.BatchOkFor | internal/raft/node.go:338-392 | storing a batch keeps every acknowledged and committed prefix, and the commit index moves only over committed entries |
| Deliveries.AppendReqStepOk | internal/raft/node.go:338-392 | the AppendEntries receiver keeps the invariant on every disk outcome |
| Deliveries.SnapReqStepOk | internal/raft/node.go:408-489 | the InstallSnapshot receiver keeps the invariant |
| Deliveries.AppendRespOk | internal/raft/replicator.go:57-83 | consuming a reply credits a peer only with what it acknowledged, and counts it as evidence only in the sending term |
| Deliveries.SnapRespOk | internal/raft/replicator.go:124-149 | the same for a snapshot reply |
| Committing.TickLeaderOk | internal/engine/engine.go:400-404 | advancing the commit index and firing waiters keeps the invariant |
| Committing.AdvanceOk | internal/raft/node.go:284-312 | the quorum index of the current term is acknowledged by a quorum and becomes committed |
| Committing.AnsweredCommitted | internal/engine/engine.go:338-355 | a waiter answered nil names a committed entry; the others still wait for theirs |
| Committing.ApplyOneOk | internal/engine/engine.go:518-540 | applying one entry keeps the machine at the fold of the applied prefix |
| Committing.CompactOk | internal/engine/engine.go:565-594 | compacting keeps the invariant and the snapshot is the fold of the applied prefix with its true term |
| Reads.AdmittedReadOk | internal/engine/quorum.go:354-387 | an admitted read is pinned at or above everything committed up to its term, if the leader has a floor, and electors of later terms had left it |
| Reads.PinnedExactlyWhenFloored | internal/engine/quorum.go:361-367 | a leader pins its reads at or above the log it was elected with if and only if its no-op is in its log or no entry of an earlier term lies above its commit index; that is, an entry of its term is committed or all of that first log is |
| Reads.AdmitReadOk | internal/engine/quorum.go:354-387 | admitting a read keeps the invariant and counts no round already claimed |
| Reads.ReleaseReadOk | internal/engine/quorum.go:422-445 | a released read was confirmed by servers that had not left its term on admission |
| HeadCount.CountIsQuorum | internal/engine/quorum.go:411-417 | where the configuration allows it, counting heads is exactly the quorum rule, simple or joint |
| HeadCount.HeadCountExactlyWhen | internal/engine/quorum.go:411-417 | for every configuration with a voter and every leader in it, the count never passes without a quorum if and only if the fewest voters, and outgoing voters, that so many heads can include are a majority |
| HeadCount.SimpleHeadsSuffice | internal/engine/quorum.go:411-417 | outside a transition that is: the leader votes, and there is no learner or no other voter |
| HeadCount.LearnersMiscount | internal/engine/quorum.go:411-417 | with an acknowledging learner the count passes while the quorum rule does not |
| HeadCount.TransitionMiscounts | internal/engine/quorum.go:411-417 | on the way from three servers to one, the remaining server passes the count alone while the quorum rule fails |
| Reads.RestartOk | cmd/crystal/main.go:95-134 | a restart from log file, snapshot and term record keeps the invariant |
| Reads.DropClientsOk | internal/engine/engine.go:358-371 | clients giving up keeps the invariant |
| Reads.StepDownOk | internal/engine/quorum.go:299-334 | losing contact with a majority steps down in the same term and keeps the invariant |
| Membership.CountMajority | internal/raft/configuration.go:116-130 | the counting loop decides majority |
| Membership.ComputeHasQuorum | internal/raft/configuration.go:106-114 | agreement is a majority of both memberships while joint |
| Membership.MajorityIndex | internal/raft/configuration.go:154-166 | sort and select returns n such that a majority holds m if and only if m is at most n |
| Membership.QuorumIndex | internal/raft/configuration.go:139-150 | the result is exactly the greatest index whose holders are a quorum, simple or joint; without voters it is never positive |
| Membership.QuorumIndexUnique | internal/raft/configuration.go:139-150 | there is only one such index |
| Membership.MiddleIsFrontier | internal/raft/configuration.go:162-165 | the middle of a descending ranking is the majority frontier |
| Membership.OutsidersNeverMatter | internal/raft/configuration.go:132-138 | learners and other outsiders never change a majority |
| Membership.OneConfigurationMeets | internal/raft/configuration.go:99-114 | two agreements of one configuration share a voter, exactly when anyone has a vote |
| Membership.EnteringMeets | internal/raft/configuration.go:168-181 | agreements before and after entering a transition share a voter |
| Membership.LeavingMeets | internal/raft/configuration.go:183-191 | agreements before and after leaving it share a voter, exactly when the target has one |
| Membership.DirectSwitchIsUnsafe | internal/raft/configuration.go:99-105 | without the joint stage two valid configurations can agree separately |
| Membership.TransitionAgreesExactlyWhen | internal/raft/configuration.go:168-191 | during a transition agreement takes a majority of the target and of the voters before it, afterwards of the target alone; who is a member and who a voter at each stage |
| RaftLog.AccessorsAgree | internal/raft/log.go:306-413 | from the boundary up, entry and term lookups answer as the plain sequence |
| RaftLog.LastAgrees | internal/raft/log.go:323-364 | last index and term are those of the plain sequence |
| RaftLog.EntriesAgree | internal/raft/log.go:380-396 | entries from an index are the plain sequence's suffix |
| RaftLog.LeaderAppendRefines | internal/raft/log.go:163-180 | a leader's append appends to the plain sequence |
| RaftLog.LeaderAppendRefinesExactlyWhen | internal/raft/log.go:163-180 | an append leaves anything that stands for a log if and only if the next index is the one past its end |
| RaftLog.SpliceRefines | internal/raft/log.go:240-285 | the receiver's loop is the splice, succeeds exactly when the disk takes every new entry, and moves the next index only with an entry appended |
| RaftLog.SpliceAlignedExactlyWhen | internal/raft/log.go:248-272 | the next index stays usable if and only if the disk did not refuse the first entry after a real conflict |
| RaftLog.RefusedBatchLosesAlignment | internal/raft/log.go:248-272 | a three-entry log that then answers index 2 with an entry numbered 4 |
| RaftLog.SpliceShrinksOnlyOnConflict | internal/raft/log.go:248-256 | the log shrinks only past an entry whose term conflicts |
| RaftLog.SpliceIdempotent | internal/raft/log.go:245-247 | redelivering a stored batch changes nothing |
| RaftLog.SpliceFollowsSender | internal/raft/log.go:240-303 | a splice leaves the old log or a prefix of the sender's, with the whole batch if it was stored |
| RaftLog.SpliceKeepsShared | internal/raft/log.go:240-303 | whatever log and sender have in common survives |
| RaftLog.BelowBoundaryRefused | internal/raft/log.go:258-271 | a batch starting below the boundary is refused and changes nothing |
| RaftLog.CompactionRefines | internal/raft/log.go:447-469 | compaction changes the representation, never the log |
| RaftLog.ResetRefines | internal/raft/log.go:482-517 | a log containing the snapshot is unchanged, any other becomes the snapshot's prefix |
| RaftLog.ResetAlignedExactlyWhen | internal/raft/log.go:501-514 | the next index stays usable if and only if the snapshot is old news, contained in the log, or reaches its end |
| RaftLog.ResetLosesAlignment | internal/raft/log.go:501-514 | a ten-entry log that then answers index 6 with an entry numbered 11 |
| RaftLog.CrashDuringCompaction | internal/raft/log.go:540-576 | recovering the uncut log against the persisted snapshot gives the cut log |
| RaftLog.CrashDuringInstall | internal/raft/log.go:540-576 | recovery and ResetToSnapshot agree if and only if the file's term at the boundary matches or the file ends at or below it |
| RaftLog.CrashDuringInstallKeepsStaleSuffix | internal/raft/log.go:553-563 | the failing case keeps an entry that never followed the snapshot |
| RaftLog.RestartRefines | internal/raft/log.go:540-576 | recovering the file of an intact log gives the log back |
| LogRuns.StandsExactlyWhen | internal/raft/log.go:163-576 | over every sequence of appends, batches, compactions, installs and restarts, cache, offset and next index stand for one plain sequence at every moment if and only if each leader's append was made where its log ended |
| LogRuns.LogRefinesSequence | internal/raft/log.go:163-576 | then every accessor answers from the plain sequence, from the boundary up |
| LogRuns.StrandedExactlyWhen | internal/raft/log.go:200-517 | a usable next index is lost by a refused batch that cut the log and by a snapshot that replaces a longer log, and by nothing else |
| LogRuns.BatchRefines | internal/raft/log.go:200-303 | a batch does to the plain sequence what the paper's splice does, and succeeds exactly when the check passes and the disk takes it |
| FailedWrites.RedeliveryAfterFailedSync | internal/raft/log.go:240-294 | a refused batch redelivered to a disk that takes nothing is acknowledged if and only if all of it had been written before |
| FailedWrites.RestartBehindSnapshotExactlyWhen | internal/raft/log.go:540-576 | a restart of a file with refused frames in it gives the cache back if and only if the snapshot covers their index or the first of them equals the entry appended in its place; otherwise that frame is in its place |
| FailedWrites.RestartWithoutSnapshotExactlyWhen | internal/raft/log.go:97-159 | without a snapshot it never gives the cache back, and opens as a log only if one frame was refused and nothing appended since |
| FailedWrites.RefusedEntryComesBack | internal/raft/log.go:589-597 | a refused command comes back under the index and term of the acknowledged one |
| FailedWrites.RestartUncutExactlyWhen | internal/raft/log.go:248-275 | a restart of a file that was not rewritten after a conflict gives memory's log back if and only if the snapshot covers the stale entries or what replaced them begins with the same |
| FailedWrites.RestartUncutWithoutSnapshotExactlyWhen | internal/raft/log.go:97-159 | without a snapshot if and only if nothing had been cut; it opens as a log only then or if nothing was appended |
| FailedWrites.ReplacedEntryComesBack | internal/raft/log.go:248-275 | a replaced entry of term 1 comes back in place of an acknowledged one of term 2 |
| FileRuns.RestartGivesBackExactlyWhen | internal/raft/log.go:97-681 | over every sequence of appends, batches, compactions, installs and restarts, each write failing or not: a restart comes back with the first entry of each number above the snapshot, so with memory's log if and only if those are memory's and, without a snapshot, no number occurs twice |
| FileRuns.RunTracks | internal/raft/log.go:163-576 | each operation does to memory and file what the plain account says |
| FileRuns.FaultlessGivesBack | internal/raft/log.go:589-681 | where no frame was written without its sync and every cut of an entry reached the file, a restart always gives memory's log back |
| DurableLog.RaftLog.constructor | internal/raft/log.go:97-159 | the recovered entries fix first and next index |
| DurableLog.RaftLog.AppendLeader | internal/raft/log.go:163-180 | file and cache grow together, or neither does, or the sync failed and only the file has grown |
| DurableLog.RaftLog.FindConflictStart | internal/raft/log.go:226-236 | the first index of the run of the conflicting term, never below the first index |
| DurableLog.RaftLog.RewriteWal | internal/raft/log.go:637-681 | the file becomes the cache, or stays as it was, or becomes it with an error reported |
| DurableLog.RaftLog.SpliceIn | internal/raft/log.go:240-285 | the loop on the fields is the splice function; after a failed rewrite, that of a disk taking only what was appended so far, with the file longer than the cache |
| DurableLog.RaftLog.AppendEntriesToLog | internal/raft/log.go:200-303 | the method is the receiver function on every check and disk outcome |
| DurableLog.RaftLog.TruncateBeforeIndex | internal/raft/log.go:447-469 | the method is the compaction function; a failed rewrite is reported and leaves only the file behind |
| DurableLog.RaftLog.ResetToSnapshot | internal/raft/log.go:482-517 | the method is the reset function; a failed rewrite is reported and leaves only the file behind |
| DurableLog.RaftLog.RestoreOffset | internal/raft/log.go:540-576 | the method is the restore function; a failed rewrite is reported and leaves only the file behind |
| NodeObject.RaftNode.constructor | internal/raft/node.go:101-134 | a node starts in the given role with the given record and progress for exactly its peers |
| NodeObject.NewRaftNode | internal/raft/node.go:101-134 | boot is refused exactly for an invalid configuration, an unreadable record, or a default record that cannot be saved |
| NodeObject.RaftNode.CommitPersistent | internal/raft/node.go:919-928 | durable first, adopted second, no write when nothing changes |
| NodeObject.RaftNode.BecomeFollower | internal/raft/node.go:783-802 | the vote is cleared only when the term rises |
| NodeObject.RaftNode.BecomeCandidate | internal/raft/node.go:554-578 | nothing is adopted unless the self-vote was saved |
| NodeObject.RaftNode.RecordVoteAndCheckMajority | internal/raft/node.go:583-595 | won if and only if still a candidate in that term and the votes with this one are a quorum |
| NodeObject.RaftNode.BecomeLeader | internal/raft/node.go:814-837 | promotes only a candidate still in that term, with progress for exactly the current peers |
| NodeObject.RaftNode.HandleRequestVote | internal/raft/node.go:608-684 | a vote is given if and only if the term is not behind, no leader was heard from within the timeout, nobody else has it and the candidate's log is not behind; only a grant resets the clock |
| NodeObject.RaftNode.HandlePreVote | internal/raft/node.go:946-962 | yes if and only if the term is ahead, no leader was heard from within the timeout and the log is not behind; nothing is modified |
| NodeObject.RaftNode.HandleAppendEntries | internal/raft/node.go:338-392 | node and log together do what the cluster's step does |
| NodeObject.RaftNode.HandleInstallSnapshot | internal/raft/node.go:408-489 | node, log, machine and snapshot file together do what the cluster's step does, in the code's order; a file that cannot be cut costs only the answer |
| NodeObject.RaftNode.SetFollowerCommitIndex | internal/raft/node.go:709-720 | the greater of the old commit index and the smaller of leader commit and match |
| NodeObject.RaftNode.SeedFromSnapshot | internal/raft/node.go:755-762 | raises both boundaries, lowers neither |
| NodeObject.RaftNode.UpdatePeerProgress | internal/raft/node.go:206-227 | ignores unknown peers, never lowers progress |
| NodeObject.RaftNode.BacktrackNextIndex | internal/raft/node.go:249-266 | takes the hint if it is lower, else steps back, never below one |
| NodeObject.RaftNode.AdvanceCommitIndex | internal/raft/node.go:284-312 | commits the index a quorum holds and none beyond, when that entry is of the current term |
| Backtrack.CatchUp | internal/raft/replicator.go:41-83 | from a next index above what the follower has compacted, against a fixed leader log: at most one rejection more than the rest of the follower's log has terms, then the leader's log is a prefix of the follower's, progress says so and the follower's commit index has followed the leader's, or a snapshot newer than the follower's is due |
| Backtrack.ReplicateTo | internal/raft/replicator.go:41-83 | one round: the request at next index, the follower's answer, the leader's bookkeeping, or the request or the reply lost, on every disk outcome of the follower |
| Backtrack.ProbeRejected | internal/raft/log.go:209-238 | every rejection strictly lowers the next index, never to the follower's boundary, and skips a whole term of the follower's log |
| Backtrack.ProbeAccepted | internal/raft/log.go:240-303 | a probe that matches stores the whole batch |
| Backtrack.RunsCanSearch | internal/raft/replicator.go:41-83 | every reachable leader and member not ahead of its term are in a position to search, from any next index above what the member has compacted |
| Stalls.CatchesUpExactlyWhen | internal/engine/replicator_loop.go:60-90 | replication to a follower gets somewhere, by a stored batch or a newer snapshot, if and only if the next index is above what the follower has compacted or the leader has compacted as far |
| Stalls.RefusedBelowBoundary | internal/raft/log.go:209-271 | at or below the follower's boundary every probe is refused, the follower unchanged, and the next index goes down by one, to one and no further |
| Stalls.StalledForEver | internal/raft/replicator.go:41-83 | a follower holding the leader's whole log in a snapshot is never credited with it |
| Wal.Recover | internal/raft/log.go:97-159 | the loop returns the complete frames, cuts the file behind them, and reports an undecodable payload |
| Wal.RecoveryUnderAnyCut | internal/raft/log.go:97-159 | for every log whose entries the encoding carries, and every cut of its file, exactly the entries with complete frames come back and the file is cut to their length |
| Wal.RecoveryIsInverse | internal/raft/log.go:602-618 | reading inverts writing |
| Wal.EveryLogCanBeEncoded | internal/raft/log.go:602-618 | encodings as these results ask for exist for every log short enough to number its entries |
| Wal.RecoveryIsIdempotent | internal/raft/log.go:97-159 | recovering a recovered file changes nothing, whatever bytes it held |
| Wal.AppendsAfterRecovery | internal/raft/log.go:97-159 | entries appended after a recovery come back behind the recovered ones, under any later cut |
| Wal.AppendAfterTornFrameIsLost | internal/raft/log.go:113-124 | without the cut, nothing is read of an entry appended behind a torn frame if and only if the torn payload takes up all of its frame |
| Wal.SomeEntryIsLost | internal/raft/log.go:113-124 | for any two different entries an encoding under which the one is swallowed behind the other |
| Wal.LengthRoundTrip | internal/raft/log.go:608-611 | the 32-bit big-endian length reads back, modulo its width |
| Wal.NetworkOrder | internal/raft/log.go:608-611 | the length is written most significant byte first |
| Store.MemoryStateMachine.ExpireSessions | internal/store/statemachine.go:213-226 | every thousandth command drops exactly the sessions past their time |
| Store.MemoryStateMachine.ExecuteCommand | internal/store/statemachine.go:229-254 | effect and outcome of each operation, errors included; what that is for each key, see ExecutedKeyByKey |
| Store.MemoryStateMachine.ApplyCommand | internal/store/statemachine.go:163-194 | clock, sweep, duplicate check, execution and session record, in that order |
| Store.MemoryStateMachine.Restore | internal/store/statemachine.go:285-304 | restores data, sessions, clock and sweep counter, absent maps as empty; bytes that do not decode change nothing |
| Store.MemoryStateMachine.Snapshot | internal/store/statemachine.go:272-281 | decodes to the very state it was taken of |
| Store.RunAcrossSnapshot | internal/store/statemachine.go:272-304 | for every log and split point, a run cut by a snapshot shipped to another machine ends like the uninterrupted run, with the same outcomes |
| Store.ApplyAllSplits | internal/store/statemachine.go:163-226 | applying a log in two runs is applying it in one |
| KeyValue.ExecutedKeyByKey | internal/store/statemachine.go:229-254 | a command executed gives the key it names its value or none and every other key what it had; it is applied if and only if it is a no-op or names a key, and otherwise refused with its own error |
| KeyValue.ReplayedChangesNothing | internal/store/statemachine.go:163-194 | a retransmission recognised changes no key and is answered with the outcome on record |
| KeyValue.SessionsAfter | internal/store/statemachine.go:163-226 | the client executed for has its outcome on record, every other session is as it was unless this command's sweep found it unused too long |
| KeyValue.LastWriteWins | internal/engine/engine.go:515-541 | over every log the value of a key is that of the last executed set or delete of it |
| KeyValue.NeverWritten | internal/engine/engine.go:515-541 | a key never written has no value |
| Dedup.RecognisedExactlyWhen | internal/store/statemachine.go:213-226 | a session survives to the duplicate check if and only if this command does not sweep or the cutoff is not past it |
| Dedup.DedupExactlyWhen | internal/store/statemachine.go:163-254 | over every log, the bounded table takes every command for what it is if and only if no retransmission comes after a sweep with its cutoff above the session's last use |
| Dedup.TableExactlyWhen | internal/store/statemachine.go:213-226 | at every prefix of such a log, a session of the unbounded table is in the bounded one, and the same, if and only if no such sweep came since its last use |
| Dedup.ExactlyOnce | internal/store/statemachine.go:163-254 | data and every answer of such a log are those of a machine that never forgets |
| Dedup.PromptIsTimely | internal/store/statemachine.go:213-226 | a retry within the time to live is always recognised |
| Dedup.EarlyIsTimely | internal/store/statemachine.go:213-226 | so is any retry before the first sweep |
| Dedup.LateRetryDeletesAgain | internal/store/statemachine.go:213-226 | a retry that meets its sweep is executed again where the unbounded table replays its answer |
| Dedup.LateRetryDestroysWrite | internal/store/statemachine.go:163-254 | a log of a thousand commands from a fresh machine whose last, a late retry of a delete, destroys another client's value |
| Cluster.FoldIsApplyAll | internal/engine/engine.go:515-541 | folding a log entry by entry is applying its commands in order |
| EngineLoops.ApplyCommitted | internal/engine/engine.go:515-541 | halts exactly when some committed entry is missing, undecodable or refused, and otherwise leaves the machine at the fold through the commit index |
| EngineLoops.CompactLog | internal/engine/engine.go:565-594 | the snapshot written is the fold with its true term, the log still stands for the same sequence, and so does the file at the next start even if it could not be cut |
| SnapshotHazards.InstallKeepsStepExactlyWhen | internal/raft/node.go:447-481 | a completed install keeps machine and applied index in step if and only if the snapshot is not behind; behind by a multiple of the sweep interval, also if the commands between left no trace |
| SnapshotHazards.FailedPersistKeepsStepExactlyWhen | internal/raft/node.go:455-473 | an install that cannot be persisted stays in step if and only if the snapshot is of the very index applied, with the same exception |
| SnapshotHazards.IdleIntervalsLeaveNoTrace | internal/store/statemachine.go:163-226 | the exception is real: whole intervals of no-ops that move neither clock nor sessions leave one machine |
| SnapshotHazards.StaleInstallUndoesWrite | internal/raft/node.go:451-457 | a late duplicate of an old snapshot undoes an applied write for good |
| Crashes.CrashInsideCompaction | internal/engine/engine.go:565-594 | a crash between writing the snapshot and cutting the log restarts as if the log had been cut |
| Crashes.CrashInsideInstall | internal/raft/node.go:455-481 | a crash between persisting a received snapshot and cutting the log restarts as after a completed install if and only if the log's term at the boundary matches or the log ends at or below it |
| Crashes.RestartRepairs | cmd/crystal/main.go:93-134 | a restart straight after an install, in step or not, has machine and applied index in step |
| Drift.InStepExactlyWhen | internal/engine/engine.go:518-594 | over every life of applying, installing, compacting and restarting: machine and applied index are in step if and only if no gap is open, and after a restart if and only if none was open when the snapshot on file was written, gaps of whole sweep intervals aside |
| Drift.LifeFits | internal/raft/node.go:447-481 | how each operation opens, carries, stores or closes the gap |
| Drift.StaleInstallLasts | internal/engine/engine.go:565-594 | the write undone by a stale install is still undone after a compaction and a restart |
| Waiters.WaiterList.Register | internal/engine/engine.go:314-319 | the client joins the end of the list |
| Waiters.WaiterList.Resolve | internal/engine/engine.go:338-371 | the in-place pass sends each decided client its result and keeps the others in order |
| Waiters.WaiterList.FailAll | internal/engine/engine.go:375-380 | everyone gets the answer and the list is empty |
| Waiters.NoneLostNoneDuplicated | internal/engine/engine.go:314-380 | over any sequence of operations, clients waiting and clients answered are together exactly the clients registered |
| Waiters.ExactlyOneResult | internal/engine/engine.go:314-380 | a client registered once has exactly one result, or is waiting and has none |
| Waiters.FireIsTheTick | internal/engine/engine.go:338-355 | the pass on the list answers and keeps the waiters the cluster's tick says |
| Waiters.FireReadsExactly | internal/engine/quorum.go:422-445 | the pass releases exactly the reads the cluster's rule releases, refuses exactly those of a term that is over and keeps the others |
| Waiters.FireWritesExactly | internal/engine/engine.go:338-355 | a write is answered nil exactly when committed in its term, refused exactly when that term is over, kept otherwise |
| Waiters.CheckRead | internal/engine/quorum.go:390-418 | satisfied if and only if leading in the read's term, the no-op committed, the index applied where awaited, and twice the confirming heads more than the cluster |
| Waiters.SweepsExactly | internal/engine/quorum.go:484-499 | sweeping fails exactly the expired writes; applying releases exactly the waits it reached |
| Waiters.CountConfirmed | internal/engine/quorum.go:411-416 | the counting loop of readSatisfied |

## Left out

- ReadsAreLinearizable: stated where the head count is sound for the leader and it has a floor; outside that the code breaks the promise (HeadCountExactlyWhen, LearnersMiscount, TransitionMiscounts, PinnedExactlyWhenFloored, StaleWithoutFloor).
- WriteCompletes: stated for a member that has compacted nothing; past its boundary a follower may need a snapshot, which can be behind what it has applied (InstallKeepsStepExactlyWhen). Messages arrive and disks work in the continuation, no timing is implied.
- SnapReqStepOk: an install behind the last applied index, or one that fails to persist, is not a cluster step; SnapshotHazards says what each does, InStepExactlyWhen for how long.
- LeadOk: a leader whose next index is stale is promoted without its no-op in the cluster; StrandedExactlyWhen says how an index becomes stale, StandsExactlyWhen what an append then does.
- ProposeOk: a leader whose next index is stale does not append in the cluster, for the same reason.
- LeaderAppendRefines: stated for a usable next index; LeaderAppendRefinesExactlyWhen says that at any other the append leaves no log.
- RestartOk: a crash between persisting a received snapshot and cutting the log is a run with a completed install where CrashInsideInstall says so, and no step otherwise; the file a restart finds is the cache (RestartGivesBackExactlyWhen says what others come to).
- AppendLeader: a write that stops inside a frame is not an outcome of the object; AppendAfterTornFrameIsLost says what an append behind one comes to.
- AppendEntriesToLog: a failed sync keeps the batch in the file; the disk losing it is not an outcome.
- HandleAppendEntries: a file left unrewritten after a conflict is seen at the object, not by a restart in the cluster; RestartGivesBackExactlyWhen says when it matters.
- CatchUp: no message is lost, the follower's disk accepts the batch and neither side compacts during the search; CatchesUpExactlyWhen says from where a search gets anywhere.
- Recover: the entry encoding is a parameter; the round trips ask of it, for the entries written, that decoding inverts it and that a payload is shorter than 2^32 bytes.
- File handles, directory syncs and rename are not modelled beyond a rewrite that completes, leaves the old file, or replaces it and then reports an error.
- Clocks, timeouts and deadlines are arbitrary integers or free choices; election timing and quorum grace periods are not modelled.
- Bounded-staleness reads depend on measured time and promise nothing about order.
- Goroutines, channels and mutexes are replaced by the steps named under "Assumptions".
- Membership changes through the log are not implemented by the code; only the quorum arithmetic of a transition is covered.
- HTTP, transport, configuration parsing, logging, the snapshot encoding cache and plain accessors add only easy members.
