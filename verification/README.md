# Raft model

A model of the consensus library in `components/raft`, with proofs about it. Four parts of the library are
covered, each by its own group of files.

* **Replication** (`Raft`, `RaftNode`, `Cluster*`). A node is a record of term, vote, role, log, commit index,
  persisted index, votes and matches; `Raft.dfy` gives its handlers as functions and `RaftNode.dfy` as methods that
  update an object, proved equal to them. `Cluster.dfy` puts any number of such nodes next to a set of messages that
  is never emptied, so messages may be late, reordered, repeated or lost. A node that does not lead stores its log,
  term and vote before a message of it leaves; a leader's messages do not wait (`raw_node.rs:608-610`). A crash may
  lose whatever was not stored, entries, term and vote alike, and any part of the commit index, which need not be
  saved (`raw_node.rs:220-226`, `raw_node.rs:252-255`). The voters are any fixed joint configuration. A history of
  elections, votes and acknowledgements, which no step reads, carries the invariants of `ClusterBase` and
  `ClusterSafety`.
  A node that is a quorum by itself leads in the step in which it campaigns (`raft.rs:1270-1283`), before its term
  is stored. The results over runs ask one thing of the application, `Cluster.Discreet`: no append, heartbeat or read
  index of a leader leaves before its term is stored. For every other node that is proved to hold always.
  `ClusterHidden` and `ClusterSafetyHidden` treat leaders whose term is not stored yet, `ClusterUnsaved` shows what
  goes wrong when one of them speaks.
  `ClusterWritten` and `ClusterHarmless` say when the code as written is as safe, `ClusterPanics` when a node stops.
  Beside safety, `Commit`, `ClusterCommit`, `Voting` and `Handlers` say what a node achieves: when it commits, grants a
  vote, leads or steps down. `ClusterProgress` puts these together: no run leads into a state without a way on.
* **Quorums and membership** (`Quorum`, `Membership`, `Fate`, `Changer`, `Restore`). Vote results and committed indexes
  of majority and joint quorums, with and without group commit; the change engine with its overlay on the progress map,
  and what it makes of each node; rebuilding a tracker from a saved configuration.
* **The log of one node** (`LogSpec`, `LogEffects`, `TwoLayerLog`, `LogBridge`). A logical sequence with four pointers, and the
  unstable suffix over a store that may hold stale entries, refined to it. `LogBridge` shows that the log of the
  cluster model and this one agree on appends.
* **Delivery and flow** (`Delivery`, `ReadyLoop*`, `RawNode`, `Progress`, `Inflights`, `Batching`, `Backoff`, `ReadOnly`,
  `Proposals`). Handing committed entries to the application, the order of campaigns, `Ready`s and their persistence
  what a new leader may take for granted by it, what one turn of the loop achieves, what a leader sends to a follower and when, finding where two logs
  part, pending reads, and what a leader admits to its log.

Where the code differs from its own comments, both readings are modelled, chosen by a flag, and the results say under
which reading they hold.

| code | as written | as documented |
|---|---|---|
| `raft_log.rs:179` | `find_conflict` returns in its first round | the first entry the log does not hold |
| `raft_log.rs:254` | persisted is reset only above `conflict + 1` | reset from the conflict on |
| `confchange/changer.rs:176-177` | removing makes a learner, adding a learner removes | each does what its name says |
| `tracker/mod.rs:145-153` | the auto-leave flag is not copied | the saved state has the flag |
| `tracker/progres.rs:231-235` | a probe moves on, a replication pauses | a probe pauses, a replication moves on |
| `raft.rs:739` | under `batch_append`, entries join a waiting append if they do not follow it | they join if they follow it |

Two further slips would stop every run and are modelled by their evident intent: `new_message` unwraps an absent
sender (`raft.rs:293`) and `send` fills it in (`raft.rs:603-605`); the term guard of `send` (`raft.rs:631`) contradicts
its own message and the stamping below it (`raft.rs:643-645`).

`dafny verify dfyconfig.toml` checks the whole project (Dafny 4.11). `Common.dfy` holds what the groups share.

## Model

| member | source | states |
|---|---|---|
| `ClusterRuns.ElectionSafety` | components/raft/src/raft.rs:1258-1315 | over every discreet schedule of deliveries (late, repeated, reordered, lost), elections, proposals, saves and crashes (which may lose everything not stored, a term and vote included): two leaders of one term at one moment are the same node, and at any two moments if the earlier had stored its term by then; under either reading of `find_conflict`, for any joint voter set |
| `ClusterRuns.LogMatching` | components/raft/src/raft_log.rs:233-263 | over every discreet schedule, two logs of one moment that hold the same term at an index are identical up to it, and so are two of different moments as far as the earlier is not the unstored log of a leader whose term is not stored; also with the truncating `find_conflict` as written |
| `ClusterRuns.LogTermsSorted` | components/raft/src/raft.rs:1017-1031 | over every discreet schedule, terms never decrease along a log |
| `ClusterRuns.LeadersStored` | components/raft/src/raw_node.rs:608-610 | in every run whatsoever, a node that campaigns or leads has stored its term and vote, unless it is a quorum by itself |
| `ClusterRuns.LeakerAlone` | components/raft/src/raft.rs:1270-1283 | whoever speaks as a leader before its term is stored is a quorum by itself |
| `ClusterRuns.AllKnown` | components/raft/src/raw_node.rs:608-610 | in a cluster without such a node every run is discreet, every leader has stored its term and every log is known to its end: the results over runs hold of all runs, at any two moments |
| `ClusterHidden.EventFull` | components/raft/src/raft.rs:1270-1283 | the invariant behind these: leaving out the election of every leader whose term is not stored, and entering it in the history, with what it proposed since, when it is, any event that does not leak keeps history, known nodes and messages in order, and what each node has stored would do in its place |
| `ClusterUnsaved.UnsavedBreaksSafety` | components/raft/src/raw_node.rs:608-610 | one append of a sole voter that leaves before its term is stored is enough: after a crash it leads the term again, it and a learner commit different entries of that term at index 2, and the learner then leads the next term without what the voter committed |
| `ClusterUnsaved.ForgottenElection` | components/raft/src/raft.rs:1270-1283 | a discreet run in which a term that was lost unstored is led again by another node: why the earlier of two moments has to ask for a stored term |
| `ClusterSafetyRuns.StateMachineSafety` | components/raft/src/raft_log.rs:165-263 | with the documented `find_conflict`: over every discreet schedule, the entries two nodes have committed at one index, at any two moments, are equal and present in both logs; any joint voter set, group commit or not, commit by vote included, and crashes that lose whatever was not stored |
| `ClusterSafetyRuns.LeaderCompleteness` | components/raft/src/raft.rs:1475-1517 | over every discreet schedule, every leader of a later term holds everything an earlier leader had committed in its own term by then, and if its term is stored also what that leader commits afterwards |
| `ClusterSafetyRuns.NeverPanics` | components/raft/src/raft.rs:1336-1515 | over every discreet schedule no `fatal!` or assertion of the message handlers is reached, with the exact exception: a node without a term that refuses a pre-vote (if and only if); stored state counts as reported, which `ReadyLoop.LoopStopsExactly` tells apart |
| `ClusterRuns.CampaignPanicsExactly` | components/raft/src/raft.rs:1191-1286 | over every schedule whatsoever and under either reading, campaigning fails the assertion of `become_leader` exactly in a node that is a quorum by itself and has not persisted its whole log |
| `ClusterPanics.PreVotePanics` | components/raft/src/raft.rs:1475-1515 | the exception is reached: one event after the start, a node of higher priority without a term is asked for a pre-vote and stops |
| `ClusterPanics.SoleVoterPanics` | components/raft/src/raft.rs:1203-1210 | and so is the other, in a discreet run: a sole voter is made to step down by a later term before its latest entry is persisted, campaigns again and stops, although the comment says its log must be persisted |
| `ClusterSafety.Complete` | components/raft/src/raft.rs:930-941 | the heart of leader completeness: any leader elected after a commitment of an earlier term holds the committed entry, by induction over elections and quorum intersection |
| `ClusterSafety.CommittedAgree` | components/raft/src/raft_log.rs:497-509 | two committed prefixes, whatever term committed them, agree at every index both reach |
| `ClusterProgress.NeverStuck` | components/raft/src/raft.rs:1258-1315 | no schedule, with whatever losses and crashes, leads the cluster into a state it cannot get out of: with the documented `find_conflict`, any run of a cluster without a sole quorum can be continued so that the node with the best log is elected in a term later than every voter's, and every voter then commits its whole former log, its first entry and whatever is proposed to it, in this order and nothing else |
| `ClusterProgress.SomeoneGetsOn` | components/raft/src/raft.rs:1475-1515 | without priorities some voter always has the best log, so such a continuation always exists |
| `ClusterCommit.AckCommits` | components/raft/src/raft.rs:1722-1850 | over every discreet schedule: an acknowledgement that reaches the leader of its term raises the match of its sender, and the leader then has committed the greatest entry of its own term that a joint quorum is known to hold, or what it had; with commit groups, what the group index allows; an old one changes nothing |
| `ClusterCommit.PersistCommits` | components/raft/src/raft.rs:1034-1057 | so it does when a report raises its own persisted index |
| `Commit.LeaderCommitsHeld` | components/raft/src/raft.rs:930-941 | what a leader commits without groups, said by who holds what: the greatest index within the log, of its own term, that a joint quorum holds, or the old commit index if that is greater; nothing if a quorum acknowledges more than the log has |
| `Commit.LeaderCommitsByGroup` | components/raft/src/raft.rs:930-941 | what it commits in any mode, by the order-free meaning of the joint committed index |
| `Voting.LogsCompare` | components/raft/src/raft_log.rs:402-409 | of any two logs one is at least as up to date as the other, and both exactly if length and last term are equal |
| `Voting.LaterWins` | components/raft/src/raft_log.rs:402-409 | the later last term wins whatever the lengths, and with equal last terms the longer log |
| `Voting.ReachesTrans` | components/raft/src/raft_log.rs:402-409 | being at least as up to date is transitive |
| `Voting.GrantsExactly` | components/raft/src/raft.rs:1475-1515 | a request of no earlier term is granted if and only if the vote is free, the candidate's log at least as up to date, and the node gives way: to a longer log always, else to no lower priority; and what a grant leaves behind, for votes and pre-votes |
| `Voting.BestIsGranted` | components/raft/src/raft.rs:1475-1515 | in any non-empty set of nodes one has a log for which each of them, unless it outranks it, grants any request of a later term |
| `Handlers.TermTaken` | components/raft/src/raft.rs:1336-1474 | after any message the node is in the later of the two terms, unless the message is a pre-vote or the grant of one; a message of an earlier term leaves the node as it was |
| `Handlers.StaleLeaderStepsDown` | components/raft/src/raft.rs:1406-1435 | with the term check switched on, and only then, an append or heartbeat of a past term is answered, and the answer makes its leader a follower of the later term |
| `Handlers.HeartbeatFollowed` | components/raft/src/raft.rs:2533-2545 | a heartbeat of the present or a later term makes the node follow its sender and raises the commit index to what it names; it stops the node exactly if that is beyond the log |
| `Handlers.AppendFollowed` | components/raft/src/raft.rs:2466-2530 | an append of the present or a later term makes the node follow its sender; which answer it gives, and that the commit index afterwards is the most of what it was and what the message brings |
| `Handlers.AnswerCounts` | components/raft/src/raft.rs:2262-2306 | a candidate leads exactly once the first answers of the voters make a joint quorum, and stands down exactly if those still open cannot complete one or the answer commits a membership change |
| `Handlers.VoteCommits` | components/raft/src/raft.rs:1630-1675 | a commit index in a vote message is taken exactly if the log has that entry in that term, and a candidate stands down exactly if it thereby commits a membership change |
| `Handlers.ReadIndexCommits` | components/raft/src/raft.rs:2390-2408 | a follower commits by the answer to a read exactly if its entry there is of the leader's term |
| `Handlers.CampaignBegins` | components/raft/src/raft.rs:1258-1315 | a campaign begins the next term with the own vote and keeps log and commit index; it leads at once exactly if the node is a quorum by itself |
| `ClusterWritten.WrittenBreaksStateMachineSafety` | components/raft/src/raft_log.rs:165-183 | with `find_conflict` as written, a discreet run of 17 events from the start ends with two nodes holding different committed entries at index 2 |
| `ClusterHarmless.AppendsAgreeExactly` | components/raft/src/raft_log.rs:165-183 | an append does the same under both readings of `find_conflict` if and only if its anchor does not match or it is harmless: empty, or with a new entry, or reaching the end of the log |
| `ClusterHarmless.StepsAgreeExactly` | components/raft/src/raft_log.rs:165-183 | for a node and a message of a reachable state, one step, with the state stored before the reply, is the same under both readings if and only if it is not such an append |
| `ClusterHarmless.RunsAgreeExactly` | components/raft/src/raft_log.rs:165-183 | a discreet run of the code as written is the documented run, state by state, if and only if no delivery in it drops held entries, which follower and message show before it |
| `ClusterHarmless.WrittenStateMachineSafety` | components/raft/src/raft_log.rs:165-263 | state-machine safety of the code as written, over every discreet schedule without such a delivery |
| `ClusterHarmless.WrittenLeaderCompleteness` | components/raft/src/raft.rs:1475-1517 | leader completeness of the code as written, over every discreet schedule without such a delivery |
| `ClusterHarmless.WrittenNeverPanics` | components/raft/src/raft.rs:1336-1515 | the code as written stops only as the documented one does, over every discreet schedule up to and including the first such delivery |
| `ClusterHarmless.TenthForgets` | components/raft/src/raft_log.rs:165-183 | the run that breaks safety contains one: its tenth event |
| `ClusterWritten.TwoForgets` | components/raft/src/raft_log.rs:165-183 | the step that breaks it: a late append whose only entry is already held makes the follower drop the acknowledged entry behind it |
| `RaftNode.RaftNode.constructor` | components/raft/src/raft.rs:309-331 | a new node: term 0, no vote, follower, empty log |
| `RaftNode.RaftNode.FindConflict` | components/raft/src/raft_log.rs:165-183 | the scan over the entries finds the first one the log does not hold, 0 if none; or, as written, returns in its first round |
| `RaftNode.RaftNode.FindConflictByTerm` | components/raft/src/raft_log.rs:193-219 | the downward loop, ended at the first term not above the given one |
| `RaftNode.RaftNode.MaybeAppend` | components/raft/src/raft_log.rs:233-263 | rejects, stops, or leaves exactly the merged log, the raised commit index and, under either reset guard, the persisted index |
| `RaftNode.RaftNode.Reset` | components/raft/src/raft.rs:983-1012 | a new term forgets the vote; votes and matches are cleared but the node's own persisted index |
| `RaftNode.RaftNode.BecomeFollower` | components/raft/src/raft.rs:1122-1133 | the whole new state after stepping down |
| `RaftNode.RaftNode.BecomeCandidate` | components/raft/src/raft.rs:1141-1156 | fails in a leader; otherwise the whole new state of a candidate: next term, own vote |
| `RaftNode.RaftNode.BecomeLeader` | components/raft/src/raft.rs:1191-1240 | fails in a follower and unless the whole log is persisted; otherwise leads with one empty entry of its term appended |
| `RaftNode.RaftNode.MaybeCommit` | components/raft/src/raft.rs:930-941 | commits the greatest entry of its own term that a joint quorum holds, or with groups what the group index allows, and never less than before |
| `RaftNode.RaftNode.MaybeCommitByVote` | components/raft/src/raft.rs:1630-1675 | takes the commit index of a vote message if its term matches, and a candidate that thereby commits a membership change steps down |
| `RaftNode.RaftNode.NumPendingConf` | components/raft/src/raft.rs:1244-1251 | the number of membership changes among the entries |
| `RaftNode.RaftNode.OnVote` | components/raft/src/raft.rs:1475-1515 | grants once a term to an up-to-date candidate and records the vote, or refuses with the own commit position; what is stored is left alone; when a vote is due is in `Voting.GrantsExactly` |
| `RaftNode.RaftNode.OnAppend` | components/raft/src/raft.rs:2466-2530 | all four outcomes of an append: below the commit index, rejected with the conflict hint, accepted, or fatal |
| `RaftNode.RaftNode.OnHeartbeat` | components/raft/src/raft.rs:2533-2545 | raises the commit index within the log or stops, and answers with it |
| `RaftNode.RaftNode.OnAppendResponse` | components/raft/src/raft.rs:1722-1850 | an acknowledgement raises the match index and may commit; stale and rejecting ones change nothing here |
| `RaftNode.RaftNode.OnVoteResponse` | components/raft/src/raft.rs:2415-2430 | records the first answer of each voter and wins, loses or waits by the joint result |
| `RaftNode.RaftNode.ByRole` | components/raft/src/raft.rs:2246-2412 | which message each role acts on, and what it becomes by it |
| `RaftNode.RaftNode.Receive` | components/raft/src/raft.rs:1336-1515 | the term rules in front of the roles: stale messages answered or dropped, later terms caught up with, pre-votes exempt |
| `RaftNode.RaftNode.Campaign` | components/raft/src/raft.rs:1258-1315 | a new term, the own vote, and immediate leadership if that vote wins alone, with the log as far as it is persisted; nothing is stored by it |
| `Quorum.CountVotes` | components/raft/src/quorum/majority.rs:128-152 | the counting loop, in any order of the voters, gives won, lost or pending by majority |
| `Quorum.CountJointVotes` | components/raft/src/quorum/joint.rs:55-66 | both halves counted and combined by the table of outcomes |
| `Quorum.WonIsMajority` | components/raft/src/quorum/joint.rs:55-66 | a joint vote is won exactly when the yes votes hold a majority of each non-empty half |
| `Quorum.LostIsHopeless` | components/raft/src/quorum/majority.rs:128-152 | a joint vote is lost exactly if the yes votes and the missing ones together make no quorum |
| `Quorum.HasQuorumIsMajority` | components/raft/src/tracker/mod.rs:342-347 | `has_quorum` means holding a majority of each half |
| `Quorum.QuorumsMeet` | components/raft/src/quorum/joint.rs:55-66 | any two winning vote sets of one joint configuration share a voter |
| `Quorum.DecisionIsFinal` | components/raft/src/tracker/mod.rs:282-284 | a won or lost vote is never reversed by any sequence of further recorded votes |
| `Quorum.Collect` | components/raft/src/quorum/majority.rs:70-91 | the buffer holds each voter's acknowledged index once, zero for the unknown |
| `Quorum.CommittedIndex` | components/raft/src/quorum/majority.rs:70-122 | the result meets the order-free meaning of the committed index: quorum index, group index or minimum, fixed by acknowledgements alone |
| `Quorum.GroupCommittedIndex` | components/raft/src/quorum/majority.rs:99-122 | the group scan: the largest index up to the quorum index acknowledged by two distinct non-zero groups, the quorum index for a single group, else the minimum |
| `Quorum.CommittedIndexUnique` | components/raft/src/quorum/majority.rs:70-122 | that meaning determines the result, so neither hash order nor ties in the sort can change it |
| `Quorum.JointCommittedIndex` | components/raft/src/quorum/joint.rs:46-50 | the smaller of the two halves, by group commit only if both are |
| `Quorum.CommittedIndexIsVote` | components/raft/src/quorum/joint.rs:46-66 | order statistic: without group commit an index is at most the committed index exactly when the vote 'acknowledged at least that' is won |
| `Quorum.CommittedIndexHasQuorum` | components/raft/src/quorum/majority.rs:70-122 | in every mode the committed index was acknowledged by a joint quorum |
| `Membership.ConfigurationInvariant` | components/raft/src/confchange/changer.rs:65-156 | over every sequence of accepted and rejected changes from the empty tracker: tracked ids are exactly incoming, outgoing and learners; staged learners lie in outgoing and not in incoming; learners and voters are disjoint |
| `Membership.ReachableChangesNeverBreak` | components/raft/src/confchange/changer.rs:103-128 | on every reachable configuration the checks before and after a change never fire, and a joint one can always be left |
| `Membership.RunOnGood` | components/raft/src/confchange/changer.rs:285-355 | one change keeps the invariant, never reports an inconsistency, leaves voters behind, and leaving succeeds exactly when joint |
| `Membership.MembershipSafety` | components/raft/src/confchange/changer.rs:65-156 | for every reachable configuration with voters and every accepted change, any vote set winning before and any winning after share a voter of both configurations; under either dispatch |
| `Membership.NeighboursMeet` | components/raft/src/confchange/changer.rs:134-156 | majorities of voter sets that differ in at most one voter intersect |
| `Fate.ChangesDecide` | components/raft/src/confchange/changer.rs:161-250 | what becomes of every node under a batch, by the last change that names it, for either dispatch: an added one is a voter and no learner; a removed one is in no set, and tracked exactly if it is an outgoing voter; one made a learner is no voter, and staged exactly if outgoing, else a learner; one not named is as before in every set |
| `Fate.SimpleDecides` | components/raft/src/confchange/changer.rs:134-156 | a simple change is accepted if and only if the configuration is not joint and the voters it leaves are some and differ by at most one; which error it gives otherwise; then every node has met its fate |
| `Fate.EnterDecides` | components/raft/src/confchange/changer.rs:65-90 | a joint configuration is entered if and only if there is none, there are voters and the batch leaves some; the outgoing half is the old one, the auto-leave flag the one asked for, and every node has met its fate |
| `Fate.LeaveDecides` | components/raft/src/confchange/changer.rs:103-128 | leaving succeeds exactly if joint, keeps the incoming voters, makes learners of the staged ones and forgets everybody else |
| `Fate.RequestDecides` | components/raft/src/raft.rs:2795-2807 | which operation a request becomes: an accepted one was made in a joint configuration exactly if it is empty and automatic, leads into one exactly if it names a transition or several changes, and that one is left automatically exactly if not asked for explicitly |
| `Fate.GoodExactly` | components/raft/src/confchange/changer.rs:285-355 | the check around every change is the whole invariant but for four clauses, which it leaves unchecked |
| `Changer.Draft.Contains` | components/raft/src/confchange/changer.rs:26-32 | the search from the end of the change log answers what the rebuilt progress map will hold |
| `Changer.Draft.InitProgress` | components/raft/src/confchange/changer.rs:253-266 | a new voter or learner, with its addition recorded |
| `Changer.Draft.MakeVoter` | components/raft/src/confchange/changer.rs:188-197 | the whole new draft, by the meaning of adding or promoting a voter |
| `Changer.Draft.MakeLearner` | components/raft/src/confchange/changer.rs:210-234 | the whole new draft: added, demoted, staged behind an outgoing voter, or unchanged |
| `Changer.Draft.RemoveNode` | components/raft/src/confchange/changer.rs:237-250 | the whole new draft: an outgoing voter keeps its progress, any other node is forgotten; that it is then in no set is `Fate.ChangesDecide` |
| `Changer.Draft.Apply` | components/raft/src/confchange/changer.rs:161-185 | the changes in order, node zero skipped, either dispatch; fails exactly when no voter remains |
| `Changer.Draft.CheckInvariants` | components/raft/src/confchange/changer.rs:285-355 | true exactly when configuration and progress are compatible |
| `Changer.Tracker.EnterJoint` | components/raft/src/confchange/changer.rs:65-90 | same error, or same configuration and tracked ids, as entering a joint configuration means |
| `Changer.Tracker.LeaveJoint` | components/raft/src/confchange/changer.rs:103-128 | the loop over outgoing voters removes exactly those that are neither voters nor learners any more |
| `Changer.Tracker.Simple` | components/raft/src/confchange/changer.rs:134-156 | same error or same plan as a change of at most one voter |
| `Changer.Tracker.ApplyConf` | components/raft/src/tracker/mod.rs:355-372 | the loop rebuilds the progress map: its keys are the ones the change log predicted |
| `Changer.Tracker.ApplyConfChange` | components/raft/src/raft.rs:2795-2807 | a change request leaves, enters or changes simply as its transition and length say; a refused one changes nothing |
| `Changer.RebuiltKeys` | components/raft/src/tracker/mod.rs:355-372 | the rebuilt map has exactly the predicted keys |
| `Changer.RebuiltPeers` | components/raft/src/tracker/mod.rs:355-372 | a peer the changes do not name keeps its progress, any other starts over |
| `Restore.RestoreRoundTrip` | components/raft/src/confchange/restore.rs:15-108 | for every saved state: it comes back exactly when it is valid and, under the exchanged dispatch, has no learners and no leaving voter, and, if the flag is not copied, does not auto-leave |
| `Restore.RestoreSucceeds` | components/raft/src/confchange/restore.rs:91-108 | as documented, every valid state, joint or not, is restored without an error and comes back |
| `Restore.RestoredIs` | components/raft/src/confchange/restore.rs:91-108 | what exactly a valid state is restored to under each dispatch |
| `Restore.RestoredGood` | components/raft/src/confchange/restore.rs:91-108 | whatever is restored without an error is a valid configuration |
| `Restore.WrittenLosesLearner` | components/raft/src/confchange/changer.rs:174-179 | a valid state with one learner that the exchanged dispatch restores without its learner |
| `Restore.OneByOneIsAll` | components/raft/src/confchange/restore.rs:93-97 | changing one by one equals changing all at once as long as a voter remains |
| `Restore.SimpleEach` | components/raft/src/confchange/restore.rs:93-103 | the restore loop: each change through the engine and into the tracker, up to the first refusal |
| `Restore.RestoreTracker` | components/raft/src/confchange/restore.rs:91-108 | the tracker ends where the meaning of restore says, error included, every peer with a fresh progress |
| `LogSpec.LimitSize` | components/raft/src/util.rs:48-71 | the scan keeps the longest prefix that fits |
| `LogSpec.LimitedPrefix` | components/raft/src/util.rs:48-71 | what fits means: a prefix, non-empty if there was anything, within the limit or too large only by its first sized entry, and not extendable |
| `LogSpec.LimitedParts` | components/raft/src/raft_log.rs:575-626 | limiting a first part is the same as limiting the whole if the part was cut |
| `LogSpec.PointerInvariants` | components/raft/src/raft_log.rs:22-39 | over every run of log operations, under either reading of both doubtful lines: applied never passes min(committed, persisted), which never falls; committed never passes the last index; committed entries never change unless a snapshot or compaction removes them; with the documented guard, persisted stays below the unstable offset |
| `LogSpec.WrittenGuardExact` | components/raft/src/raft_log.rs:252-256 | the reset guard as written keeps persisted below the unstable offset if and only if persisted was not at the conflict or one above |
| `LogSpec.GuardsAgreeExactly` | components/raft/src/raft_log.rs:233-263 | a whole append does the same under both readings of the reset guard if and only if it does not replace entries while persisted is at the conflict or one above |
| `LogSpec.WrittenGuardFails` | components/raft/src/raft_log.rs:252-256 | an append after which index 1 is committed and counts as persisted though its entry is not saved |
| `LogSpec.AppendHolds` | components/raft/src/raft_log.rs:149-164 | as documented, an accepted append leaves the log holding every entry of the message |
| `LogSpec.HeldAppendIsQuiet` | components/raft/src/raft_log.rs:149-164 | as documented, an append whose entries are all held changes no entry |
| `LogSpec.WrittenQuietExactly` | components/raft/src/raft_log.rs:165-183 | as written, such an append changes no entry if and only if its anchor does not match, it is empty, or the log ends with it |
| `LogSpec.WrittenTruncates` | components/raft/src/raft_log.rs:165-183 | an append of a held entry that cuts the log off |
| `LogSpec.ConflictIsFirst` | components/raft/src/raft_log.rs:149-183 | the documented conflict: every earlier entry is held, the one at the conflict is not |
| `LogEffects.AppendDecides` | components/raft/src/raft_log.rs:233-263 | as documented: an append is rejected exactly if the log has another term at its anchor; accepted, it keeps what is held, ends with the message from the first difference on, forgets what was persisted of the old tail, and commits as far as the message reaches |
| `LogEffects.AppendStopsExactly` | components/raft/src/raft_log.rs:233-263 | an append of entries with terms that starts within the log stops the process if and only if its first difference is at a committed entry |
| `LogEffects.CommitDecides` | components/raft/src/raft_log.rs:270-285 | the commit index rises to what is named, never falls, and the process stops exactly if the log does not reach that far |
| `LogEffects.MaybeCommitDecides` | components/raft/src/raft_log.rs:497-509 | an index commits exactly if it is beyond the commit index and the log has an entry of that term there |
| `LogEffects.PersistDecides` | components/raft/src/raft_log.rs:512-541 | the persisted index rises to a stored index exactly if it was handed over and the store still has it in that term |
| `LogEffects.RestoreDecides` | components/raft/src/raft_log.rs:629-647 | after a snapshot the log knows one term, the snapshot's, and nothing else; stops exactly if the snapshot is behind the commit index |
| `LogEffects.CompactDecides` | components/raft/src/storage.rs:284-303 | compaction makes exactly the entries below its index unavailable, and moves no pointer |
| `LogEffects.HandsOutExactly` | components/raft/src/raft_log.rs:412-437 | without a limit exactly the entries after the cursor that are committed and persisted come out, in order; with one the first of these, at least one, and as many as fit |
| `TwoLayerLog.MemStorage.Entries` | components/raft/src/storage.rs:305-336 | the stored range, limited; compacted below, fatal beyond |
| `TwoLayerLog.MemStorage.Append` | components/raft/src/storage.rs:344-368 | overwrites from the first index of the entries on; fatal below the first index and beyond the end |
| `TwoLayerLog.MemStorage.Compact` | components/raft/src/storage.rs:284-303 | drops just the entries below the index, stops beyond the end; an emptied store falls back to the indexes of its snapshot |
| `TwoLayerLog.MemStorage.ApplySnapshot` | components/raft/src/storage.rs:232-249 | refuses an older snapshot, else empties the log and remembers its index and term |
| `TwoLayerLog.Unstable.StableEntries` | components/raft/src/log_unstable.rs:82-107 | fatal unless no snapshot waits and the last entry is the named one; then empty with the offset moved past it |
| `TwoLayerLog.Unstable.StableSnap` | components/raft/src/log_unstable.rs:110-128 | fatal unless the named snapshot waits; then gone |
| `TwoLayerLog.Unstable.Restore` | components/raft/src/log_unstable.rs:131-136 | the snapshot waits, everything else is empty, the offset follows it |
| `TwoLayerLog.Unstable.TruncateAndAppend` | components/raft/src/log_unstable.rs:143-164 | the entries after dropping what they overlap, with the byte count kept exact; fatal when they would leave a gap |
| `TwoLayerLog.RaftLog.constructor` | components/raft/src/raft_log.rs:60-76 | opening a store starts from its contents with the pointers of a new log |
| `TwoLayerLog.RaftLog.Term` | components/raft/src/raft_log.rs:105-125 | the two-layer lookup is the term of the logical log, zero outside it |
| `TwoLayerLog.RaftLog.LastTerm` | components/raft/src/raft_log.rs:81-91 | never fails, and is the term at the last index |
| `TwoLayerLog.RaftLog.FindConflict` | components/raft/src/raft_log.rs:165-183 | the loop on the two layers agrees with the logical log |
| `TwoLayerLog.RaftLog.FindConflictByTerm` | components/raft/src/raft_log.rs:193-219 | the last index up to the given one whose term is not later, everything above it later; no answer out of range or below what is known |
| `TwoLayerLog.RaftLog.CommitTo` | components/raft/src/raft_log.rs:270-284 | raises the commit index within the log, never lowers it, stops beyond the end |
| `TwoLayerLog.RaftLog.AppliedTo` | components/raft/src/raft_log.rs:293-307 | moves applied within min(committed, persisted), never back |
| `TwoLayerLog.RaftLog.MaybeCommit` | components/raft/src/raft_log.rs:497-509 | commits a later index only if its term matches, and says whether it did |
| `TwoLayerLog.RaftLog.Append` | components/raft/src/raft_log.rs:342-363 | append is exactly splice-at-index on the logical log; fatal at or below the commit index |
| `TwoLayerLog.RaftLog.MaybeAppend` | components/raft/src/raft_log.rs:233-263 | rejection, fatal, or the spliced log with the persisted index reset and the commit index raised |
| `TwoLayerLog.RaftLog.MaybePersist` | components/raft/src/raft_log.rs:512-541 | persisted moves only below the first unsaved index and only if the store has the term |
| `TwoLayerLog.RaftLog.StoredIsLogged` | components/raft/src/raft_log.rs:512-541 | without a pending snapshot, what the store says below the offset is what the log says |
| `TwoLayerLog.RaftLog.MaybePersistSnap` | components/raft/src/raft_log.rs:544-571 | persisted moves up to a snapshot within committed and below the offset, else stops |
| `TwoLayerLog.RaftLog.RestoreSnapshot` | components/raft/src/raft_log.rs:629-651 | the log restarts behind the snapshot, persisted lowered to what was committed |
| `TwoLayerLog.RaftLog.Save` | components/raft/src/storage.rs:344-368 | what the application writes to the store leaves the logical log as it was |
| `TwoLayerLog.RaftLog.StableSnap` | components/raft/src/raft_log.rs:323-325 | handing the snapshot over to the store changes nothing but its pending state |
| `TwoLayerLog.RaftLog.StableEntries` | components/raft/src/raft_log.rs:317-319 | handing the entries over to the store moves the offset and nothing else |
| `TwoLayerLog.RaftLog.CompactStore` | components/raft/src/storage.rs:284-303 | compacting the store drops a prefix of the logical log, or nothing visible behind a pending snapshot |
| `TwoLayerLog.RaftLog.Slice` | components/raft/src/raft_log.rs:575-626 | the stored part limited, returned early if cut, else stitched and limited again, equals the logical range limited once, for every limit; compacted and out-of-range cases included |
| `TwoLayerLog.RaftLog.NextEntriesSince` | components/raft/src/raft_log.rs:412-435 | the committed and persisted entries after the cursor, limited; none if there are none; never fatal |
| `LogBridge.AppendsAgree` | components/raft/src/raft_log.rs:233-263 | on an uncompacted log the append of the cluster model and that of the two-layer log have the same outcome, entries and commit index |
| `Delivery.ExactlyOnce` | components/raft/src/raw_node.rs:512-614 | over every run of raft steps, readies, advances (synchronous or not), late persist notices and compactions: what the application is handed is one gap-free, strictly increasing sequence from where it had applied to, jumping only to a snapshot's index, and each entry is the one the log holds as committed |
| `Delivery.DeliveryNeverPanics` | components/raft/src/raw_node.rs:657-758 | in such a run, in which a leader's first ready comes with records that name nothing, the other assertions of `ready` and those of `commit_ready` and `on_persist_ready`, and the fatals below them, never fire; `ReadyLoop.LoopStopsExactly` takes away the condition |
| `ReadyLoop.ElectedIsSaved` | components/raft/src/raft.rs:1203-1210 | over every run of campaigns, readies, stores, persist reports and raft steps: a candidate that the answers to its stored requests can elect has its whole log stored, but persisted to the end exactly if a report has named that end since; it has once the ready of its campaign is reported, and then only records that name nothing are left; under the reset guard as written, persisted may also be beyond the log |
| `ReadyLoop.LoopStopsExactly` | components/raft/src/raw_node.rs:543-758 | over every such run, exactly when an act stops the process: an append the log refuses, an election by answers before any report has named the end of the log (or, with the written guard, with persisted beyond it), never once the ready of the campaign is reported; or a sole voter's immediate election with an unsaved log; or the first ready of a leader elected before that report with records left; so the drain assertion, the fatal on new messages and both hard-state assertions of `advance_append` never fail otherwise |
| `ReadyLoop.LoopExactlyOnce` | components/raft/src/raw_node.rs:512-614 | with a leader committing in the middle of an advance as well, the application is handed one gap-free sequence of committed entries |
| `ReadyLoopWritten.RunsAgreeExactly` | components/raft/src/raft_log.rs:252-256 | a run of the loop with the guard as written is the run with the documented one, step by step, if and only if it has no such append, which log and message show before it |
| `ReadyLoopWritten.WrittenElectedIsSaved` | components/raft/src/raft.rs:1203-1210 | without such an append the guard as written stops a candidate elected by answers exactly as the documented one does: if and only if no report has named the end of its log |
| `ReadyLoopStops.WrittenGuardStopsLeader` | components/raft/src/raft_log.rs:252-256 | with the reset guard as written, a run of six acts after which an ordinary election fails the assertion of `become_leader` |
| `ReadyLoopStops.UnreportedStopsLeader` | components/raft/src/raw_node.rs:760-769 | with both documented readings, a run of five acts: the ready of a campaign is stored and its requests answered before it is reported, and the election fails the assertion of `become_leader` |
| `ReadyLoopStops.SoleVoterStopsInReady` | components/raft/src/raw_node.rs:556-564 | with both documented readings, a run after which a sole voter that has just won fails the drain assertion |
| `Delivery.ReadyCatchesUp` | components/raft/src/raw_node.rs:512-533 | without a size limit a ready leaves no committed and persisted entry behind |
| `Delivery.AdvanceApplies` | components/raft/src/raw_node.rs:726-731 | after `advance` the applied index is what had been handed out before it |
| `ReadyLoopServes.TurnServes` | components/raft/src/raw_node.rs:726-766 | from any state a run of the loop leads to between two Readys, unless the node was elected before its campaign was reported: taking a Ready, storing it, advancing and applying leaves nothing behind; `has_ready` is false, the log is persisted to its end with no record left, the application has received everything committed, and the applied index is the commit index |
| `ReadyLoopServes.HasReadyExactly` | components/raft/src/raw_node.rs:617-651 | `has_ready` is true if and only if a Ready would show a change, send, store or hand out anything |
| `RawNode.RawNode.GenLightReady` | components/raft/src/raw_node.rs:512-533 | hands out the next entries, moves the cursor to the last of them, asserts it moved |
| `RawNode.RawNode.HasReady` | components/raft/src/raw_node.rs:617-651 | the tests in their order: messages, role, hard state, unstable entries, snapshot, entries to hand out |
| `RawNode.RawNode.DrainRecords` | components/raft/src/raw_node.rs:556-564 | the drain loop fails exactly when a record still names an entry or a snapshot |
| `RawNode.RawNode.MoveToSnapshot` | components/raft/src/raw_node.rs:582-599 | a pending snapshot moves the cursor to its index, with both assertions |
| `RawNode.RawNode.GetReady` | components/raft/src/raw_node.rs:543-614 | the whole ready: the changed role and hard state, number, snapshot, unsaved and committed entries, when its messages may leave, and when it must be stored first: exactly with a snapshot, entries, or a changed term or vote |
| `RawNode.RawNode.CommitReady` | components/raft/src/raw_node.rs:663-679 | makes the role and hard state of the ready the previous ones, and hands over the snapshot and entries the last record names |
| `RawNode.RawNode.PopRecords` | components/raft/src/raw_node.rs:693-711 | the loop pops the records up to a number and finds their last snapshot and the last entry after it |
| `RawNode.RawNode.OnPersistReady` | components/raft/src/raw_node.rs:692-719 | reports that snapshot and then that entry as persisted |
| `RawNode.RawNode.FinishAdvance` | components/raft/src/raw_node.rs:744-757 | the three checks that end an advance, and the commit index it tells of |
| `RawNode.RawNode.AdvanceAppend` | components/raft/src/raw_node.rs:740-758 | commits the ready, reports everything persisted, lets a leader commit and send by it, hands out what that released, and checks |
| `RawNode.RawNode.Advance` | components/raft/src/raw_node.rs:726-731 | what was handed out before the call counts as applied after it |
| `Backoff.RejectedTermsDecrease` | components/raft/src/raft.rs:1722-1825 | if two successive probes are rejected, the second lands on a strictly smaller term of the leader's log |
| `Backoff.NoProbeSkipsAgreement` | components/raft/src/raft.rs:1722-1825 | no probe goes below an index under the rejected one where the two logs agree |
| `Backoff.LandsOnLastAgreement` | components/raft/src/raft.rs:2508-2525 | probing ends, exactly at the last index from the first probe down where the logs agree |
| `Backoff.OneRejectionPerTerm` | components/raft/src/raft.rs:1722-1825 | there are at most as many rejections as distinct terms in the leader's log up to the first probe |
| `Backoff.RejectionMovesProgress` | components/raft/src/tracker/progres.rs:167-205 | the progress record moves to just the computed probe and may send it |
| `Backoff.RejectionKeepsMatch` | components/raft/src/tracker/progres.rs:187-205 | a genuine rejection lowers the next index but never to the match or below |
| `Backoff.RefusalCarriesHint` | components/raft/src/raft.rs:2492-2527 | a follower refuses exactly a non-matching probe, and its reply carries the hint used here |
| `Backoff.SearchIs` | components/raft/src/raft_log.rs:193-219 | `find_conflict_by_term` finds the last index not above the given one whose term is not later |
| `Progress.Progress.ResetState` | components/raft/src/tracker/progres.rs:76-81 | the whole state after entering another mode, window emptied |
| `Progress.Progress.BecomeProbe` | components/raft/src/tracker/progres.rs:95-107 | probes after the match, or after a snapshot that was sent |
| `Progress.Progress.BecomeReplicate` | components/raft/src/tracker/progres.rs:111-114 | replicates from after the match |
| `Progress.Progress.BecomeSnapshot` | components/raft/src/tracker/progres.rs:118-121 | waits for the snapshot |
| `Progress.Progress.MaybeUpdate` | components/raft/src/tracker/progres.rs:137-149 | raises match and next, resumes, and says whether it was new |
| `Progress.Progress.MaybeDecrTo` | components/raft/src/tracker/progres.rs:167-205 | stale rejections change nothing; others lower next to the hint, at least 1, or note a snapshot request |
| `Progress.Progress.UpdateState` | components/raft/src/tracker/progres.rs:229-240 | what a send does in each mode, under either order of the two arms |
| `Progress.SendPanicsExactly` | components/raft/src/tracker/progres.rs:209-240 | a send the pause check lets through stops the process never as documented, and as written exactly when a probe meets a full window |
| `Progress.ProbeSendsOnce` | components/raft/src/tracker/progres.rs:14-22 | a probing follower is held back after one message exactly as documented |
| `Progress.NextStaysAbove` | components/raft/src/tracker/progres.rs:95-149 | changes of mode, acknowledgements and sends keep the next index above the match, which never falls |
| `Progress.ModesBeginBehindMatch` | components/raft/src/tracker/progres.rs:95-122 | probing and replicating begin right behind the match, or behind a snapshot that was sent, with an empty window |
| `Progress.RejectionGoesBack` | components/raft/src/tracker/progres.rs:167-205 | a rejection sets a replicating leader back to right behind the match, and a prober to a strictly earlier index within the hint, free to send; which rejections are ignored |
| `Progress.SnapshotRequestRemembered` | components/raft/src/tracker/progres.rs:167-205 | a rejection that asks for a snapshot is remembered, by a prober the first one, and moves no index |
| `Progress.NewsResumes` | components/raft/src/tracker/progres.rs:137-149 | an acknowledgement of more than was matched raises match and next index and lets a paused probe go on |
| `Progress.DecreaseKeepsNextAbove` | components/raft/src/tracker/progres.rs:167-205 | exactly when a rejection keeps the next index above the match |
| `Progress.BurstIsSafe` | components/raft/src/tracker/progres.rs:14-22 | as documented, no burst of sends overflows the window |
| `Progress.WrittenBurstPanics` | components/raft/src/tracker/progres.rs:229-240 | as written, a probing leader stops at the send after its window is full, for every capacity |
| `Inflights.Inflights.constructor` | components/raft/src/tracker/inflights.rs:23-31 | an empty window of the capacity |
| `Inflights.Inflights.SetCap` | components/raft/src/tracker/inflights.rs:35-68 | growing (wrapped or not), shrinking and deferring never alter the queue; which capacity then holds |
| `Inflights.Inflights.Add` | components/raft/src/tracker/inflights.rs:76-99 | fails exactly on a full window, else appends to the queue; indexing stays in bounds and the other assertions hold |
| `Inflights.Inflights.Scan` | components/raft/src/tracker/inflights.rs:108-123 | the rotating loop stops at the first element above, at its slot |
| `Inflights.Inflights.FreeTo` | components/raft/src/tracker/inflights.rs:102-136 | drops the leading elements up to the index, and takes a waiting capacity once empty |
| `Inflights.Inflights.FreeFirstOne` | components/raft/src/tracker/inflights.rs:140-145 | frees up to the first element |
| `Inflights.Inflights.Reset` | components/raft/src/tracker/inflights.rs:149-154 | empties the window and takes a waiting capacity |
| `Inflights.Inflights.MaybeFreeBuffer` | components/raft/src/tracker/inflights.rs:171-177 | releases memory without changing the queue |
| `Inflights.WindowIsFifo` | components/raft/src/tracker/inflights.rs:35-177 | over every run the window is the latest additions in order, within the capacity; a waiting capacity is smaller and never waits on an empty window |
| `Inflights.LastCapCounts` | components/raft/src/tracker/inflights.rs:35-136 | over every run the capacity last asked for is the one that counts: the window is full, and the next addition stops the process, exactly if it holds that many; a smaller one waits exactly until the window runs empty |
| `Inflights.ResetEmpties` | components/raft/src/tracker/inflights.rs:149-154 | starting over empties the window after any run |
| `Inflights.LastFreesAll` | components/raft/src/tracker/inflights.rs:102-136 | with increasing additions, freeing up to the last of them empties it |
| `Inflights.FreeToIsExact` | components/raft/src/tracker/inflights.rs:102-136 | with indexes added in order, freeing up to an index keeps exactly the later ones |
| `Inflights.FreeFirstIsOne` | components/raft/src/tracker/inflights.rs:140-145 | and freeing the first one frees just that one |
| `Batching.TryBatching` | components/raft/src/raft.rs:726-756 | the first waiting append for the receiver takes the entries in place if the guard lets it, with the commit index; the flag and the last index sent say so |
| `Batching.BatchIsStretch` | components/raft/src/raft.rs:726-756 | a message that entries of the log join is still a stretch of the log anchored at its index if and only if the guard is the intended one and the message carried entries already or is anchored right before them; as written, never |
| `Batching.JoinsExactly` | components/raft/src/raft.rs:739-741 | of the entries of the log, with the intended guard exactly those that follow the message join it, or any if it is empty; as written exactly the others |
| `Batching.WrittenTears` | components/raft/src/raft.rs:739-741 | a message that repeats an entry out of place |
| `Batching.IntendedTears` | components/raft/src/raft.rs:726-756 | also with the intended guard: an empty message anchored at the end of the log waits, the next index is set back, and the message takes an entry that does not follow its anchor |
| `ReadOnly.ReadOnly.AddRequest` | components/raft/src/read_only.rs:67-80 | a new context is queued once with its index and the leader's own answer, a known one ignored; map and queue stay in agreement |
| `ReadOnly.ReadOnly.RecvAck` | components/raft/src/read_only.rs:85-90 | adds the answer and gives all of them, if the context waits |
| `ReadOnly.ReadOnly.Position` | components/raft/src/read_only.rs:97-102 | finds the context's place; the fatal for a queued context missing from the map is unreachable |
| `ReadOnly.ReadOnly.Advance` | components/raft/src/read_only.rs:95-110 | the context at place i and everything queued before it come out in order and leave map and queue, all behind stays as it was; an unknown context changes nothing; both unwraps succeed |
| `ReadOnly.ReadsConserved` | components/raft/src/read_only.rs:67-110 | over every run of requests, heartbeat answers and voter changes: the reads released so far followed by those queued are exactly those accepted, in order |
| `ReadOnly.AnswerReleasesPrefix` | components/raft/src/raft.rs:1710-1719 | one answer releases a prefix ending at its own context, which a quorum has answered; with non-decreasing commit indexes none of it is above that context's index |
| `ReadOnly.AnswerDecides` | components/raft/src/raft.rs:1690-1719 | one heartbeat answer: if it completes a joint quorum for a queued request, at whatever place, that request and all before it are released in order with the indexes they came with, and exactly those behind it stay; otherwise it is only noted |
| `ReadOnly.UnknownAnswer` | components/raft/src/raft.rs:1690-1719 | an answer for a request that is not queued changes nothing |
| `ReadOnly.RequestWaits` | components/raft/src/read_only.rs:67-80 | a request waits from then on exactly if its context did not, behind the others, with its index and the leader's own answer |
| `ReadOnly.ReadServed` | components/raft/src/raft.rs:1706-1719 | a waiting request is released with the index it came with once the answers that come in, in whatever order and with whatever repeats, make a joint quorum with those it has |
| `Proposals.UncommittedState.MaybeIncrease` | components/raft/src/raft.rs:108-128 | without a limit admits all and counts nothing; otherwise admits empty batches, the first batch, and what fits, and refuses the rest unchanged |
| `Proposals.UncommittedState.MaybeReduce` | components/raft/src/raft.rs:130-150 | gives back the bytes above the inherited tail, reporting an underflow; nothing without a limit |
| `Proposals.ScreenEntries` | components/raft/src/raft.rs:2116-2161 | the proposal loop, in place: fails exactly on a change that does not decode; otherwise normal entries stay, a change stays exactly if none is pending, it leaves exactly if the configuration is joint, and no earlier one of the batch does so; any other is blanked; the pending index is that of the one that stays, else the old |
| `Proposals.ScreenKeeps` | components/raft/src/raft.rs:2116-2161 | of several changes in one proposal at most one survives, at the new pending index, and only if none was pending |
| `Proposals.ScreenDecides` | components/raft/src/raft.rs:2116-2161 | the same of the function the loop is proved against, for every batch |
| `Proposals.ProposeDecides` | components/raft/src/raft.rs:2097-2173 | at any moment of a leadership a proposal fails exactly on a malformed change, is refused exactly if bytes of the leader's own wait already and it exceeds what the limit leaves, and is otherwise appended as screened; how the pending index moves in each case |
| `Proposals.ApplyDecides` | components/raft/src/raft.rs:950-980 | applying up to the pending change of a configuration that is left automatically proposes to leave it, as the pending change; otherwise it only moves the applied index |
| `Proposals.OnePendingChange` | components/raft/src/raft.rs:2116-2173 | at any moment of a leadership the pending index bounds every unapplied change, and at most one lies above both applied and the inherited log; several in one proposal, size-refused proposals and the automatic leave included |
| `Proposals.UncommittedConserved` | components/raft/src/raft.rs:1017-1031 | at any moment of a leadership with a finite limit the counted size is the bytes of the leader's own entries not yet handed out, giving bytes back never underflows, and the size is at most the limit or one batch admitted at zero |
| `Proposals.LeaveNeverRefused` | components/raft/src/raft.rs:950-980 | the automatic proposal to leave a joint configuration is never refused for its size |

## Left out

Operations and properties

- ClusterRuns.ElectionSafety: fixes the voters for the whole run; a change of voters between two configurations is covered by `Membership.MembershipSafety`, not inside the cluster. A leader of an earlier moment whose term was not stored is left out: `ClusterUnsaved.ForgottenElection` is such a run.
- ClusterSafetyRuns.StateMachineSafety: sends no snapshots and compacts no log, so a follower behind the leader's log is not modelled in the cluster; snapshots and compaction are in the log and delivery models.
- ClusterProgress.NeverStuck: says that a way on exists, not that timeouts and retries find it; a cluster in which one node is a quorum by itself is left out, since such a node stops if it campaigns with an unpersisted log (`ClusterRuns.CampaignPanicsExactly`), and so are logs beyond 64-bit indexes.
- ClusterProgress.SomeoneGetsOn: with priorities the node with the best log may be outranked by every other, and then gets no vote of a log of its length.
- ClusterCommit.AckCommits: for a leader whose log is below the largest 64-bit index.
- ReadyLoopServes.TurnServes: under the documented reset guard; the excluded case is the assertion of `ReadyLoop.LoopStopsExactly` that stops the Ready.
- Fate.RequestDecides: says what an accepted request is; which are accepted is in `Fate.SimpleDecides`, `EnterDecides` and `LeaveDecides`.
- ClusterSafetyRuns.NeverPanics: speaks of the handlers of messages; campaigning is in `CampaignPanicsExactly`. The cluster reports what is stored in the step that stores it; that an election between storing and reporting fails the assertion of `become_leader`, and exactly when, is in `ReadyLoop.LoopStopsExactly`.
- RaftNode.RaftNode.OnAppend: without the early return for a requested snapshot; the cluster stores the log before the reply leaves, as a follower's reply waits for its `Ready` (`raw_node.rs:610`), and a leader's in a separate step.
- RaftNode.RaftNode.OnAppendResponse: covers what an acknowledgement does to match and commit indexes; the probing that a rejection starts is in `Backoff` and `Progress`.
- RaftNode.RaftNode.Campaign: never becomes a pre-candidate, as the pre-election is written (`raft.rs:1260`); pre-vote messages are sent and answered, so safety covers them, but no election completes through them.
- Delivery.DeliveryNeverPanics: takes for granted that a new leader's remaining records are bare (`raw_node.rs:556-564`) and leaves out the checks that end `advance_append`; `ReadyLoop.LoopStopsExactly` does neither.
- ReadyLoop.LoopStopsExactly: takes from the raft layer that only the answers to its vote requests, which leave when their `Ready` is stored, elect a candidate, that only a leader commits or sends by a report of persistence, and that nothing is stepped between a `Ready` and its advance (`raw_node.rs:535-541`); the store answers with the terms it was given.
- ReadyLoop.ElectedIsSaved: the soft state is the role alone, without the leader's id; read states are not part of the loop.
- RawNode.RawNode.GenLightReady: the uncommitted size it reduces is in `Proposals`; of the messages only their presence is kept, which `GetReady` and `FinishAdvance` take.
- RawNode.RawNode.OnPersistReady: a leader's commit and sending by the report are parameters of `AdvanceAppend`, and separate acts of the loop after a report on its own.
- TwoLayerLog.RaftLog.CompactStore: compaction past the applied index, past the unstable offset, or of every stored entry is excluded; the last leaves the store with the indexes of its old snapshot, as `MemStorage.Compact` says.
- TwoLayerLog.RaftLog.RestoreSnapshot: takes a snapshot of a positive index; an empty one is never sent (`raft.rs:682-684`).
- TwoLayerLog.MemStorage.ApplySnapshot: without the hard state and the configuration state that the snapshot also brings.
- RaftNode.RaftNode.constructor: a node without history; hard state, applied index and configuration of a store come in through `RawNode.RawNode.constructor` and `Restore`.
- RaftNode.RaftNode.Reset: the index of the pending change, the read requests and the next indexes are reset too, in `Proposals`, `ReadOnly` and `Progress`.
- RaftNode.RaftNode.BecomeLeader: the change of its own progress is not part of the node.
- RaftNode.RaftNode.ByRole: proposals, snapshots, transfers and read requests are not messages of the cluster.
- RaftNode.RaftNode.Receive: without the drop of a vote request under a lease, which is a message not delivered, and without local messages.
- Changer.Tracker.ApplyConfChange: ends with the new tracker; what a leader then commits and sends is a commit and a send of the cluster.
- Batching.BatchIsStretch: the cluster sends segments of the leader's log; the run of `Batching.IntendedTears`, an empty waiting message that takes entries not right behind its anchor, is not part of the cluster.
- LogSpec.PointerInvariants: appends outside `maybe_append` start at the end of the log, as `append_entry` and the bootstrap do; a direct `append` into the middle does not reset the persisted index.
- Proposals.UncommittedConserved: holds for a finite limit; without a limit nothing is counted.
- Proposals.OnePendingChange: the two early refusals of a proposal, for a removed or a transferring leader, change nothing and are not modelled.
- Inflights.Inflights.SetCap: the capacity of the vector is modelled as being zero or not, since nothing else is read from it.
- Restore.RestoreRoundTrip: compares saved states as sets, without the shortcut of `conf_state_eq` that skips the staged learners.
- Indexes, terms and sizes are unbounded; overflow of 64-bit integers is not modelled.

Parts of the repository

- What a crash can lose: entries, term and vote come back as they were last stored, and the commit index in any lower state. The entries of a `Ready` and its hard state are stored together, so a crash between the two is not modelled.
- A node that is a quorum by itself may answer a message and win its own election before the next `Ready`; the answer then leaves with a leader's messages, which an application that holds these back until the term is stored holds back too. The cluster stores the answer at once.
- Snapshot contents, `MemStorage::snapshot`, and the sending of snapshots.
- Ticks, random election timeouts, check-quorum activity and lease checks: a message dropped by a lease is a message not delivered.
- Leader transfer; priority is kept only as a condition that narrows the granting of votes.
- The order in which a leader picks what to send: the cluster lets it send any segment of its log at any time, which covers pausing, optimistic next indexes, and batching as far as `Batching.BatchIsStretch` shows that its messages are segments.
- A pending conf change as a reason not to campaign, which only rules out elections.
- Asynchronous log fetching, channels, runtimes, the bootstrap, status getters, configuration validation, logging, and protobuf encoding; an entry's encoded length is any number.
- Counting granted and rejected votes for information (`tally_votes`), and the activity of the quorum.
