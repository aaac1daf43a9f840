# Extended Raft, verified

A Dafny model of a Raft consensus core in which one voter may be a *witness*: an external record that
votes and stands behind commits without holding a log. The model covers the replication protocol of
the whole cluster, the node's own log, persistence pipeline, flow control, quorum arithmetic and
membership changes.

`dafny verify dfyconfig.toml` checks everything.

## What is modelled

**The cluster** (`ClusterState`). Replicas, a set of messages that only grows (so messages may be
lost, delayed, duplicated and reordered), the witness, and a history nothing in the protocol reads.
Thirty actions cover terms, votes, pre-votes, appends, heartbeats, snapshots, commits, reads,
persistence, restarts, subterms and witness writes; a run is any sequence of them. `ClusterInv`
holds the invariant, the `Cluster…Step(s)` modules show that each action keeps it, `ClusterHistory`
proves Leader Completeness by induction over elections in the order they were held, and
`ClusterSafety` draws the theorems about whole runs. A configuration is a majority or a joint one
without a witness, or a majority with a witness and at least two regular voters.

Three things make the argument harder than in plain Raft. A pre-vote request of a later term may move
the commit index of a replica that stays in its term, so a replica can acknowledge to its leader an
index beyond that leader's log; `Beyond` acknowledgments carry the election that explains them. A
leader may go on counting the witness after the witness has voted for somebody else; only the
intersection inside the replication set helps then. And the witness counts as acknowledging reads
without being asked. `ReadRuns` says what linearizable reads mean over the runs of a configuration, and
`StaleRead` proves for which configurations they hold: without a witness, or with an even number of
voters. For every other configuration it builds a run with a stale read. `ClusterReads` ties the answers
that replicas get, as messages and as read states of their hosts, to what was accepted.

Safety alone would be met by a cluster that refuses everything, so the other side is proved too.
`ClusterCommits` says exactly when a leader commits and when the witness counts. `ClusterAnswers` says
exactly what each request is answered. `ClusterProgress`, `ClusterRecovery` and `WitnessRecovery` show
that from every state of every run a quorum, or half of the voters and the witness, can elect a leader,
commit new data and answer a read.

The poll of the witness needs a word. `poll` passes on the type of the message it counts
(`src/raft.rs:2765`); called for a vote response (`src/raft.rs:2812`) that is a response type, which the
witness drops (`src/witness.rs:131`). As written, then, only the poll of the own vote reaches the
witness, and it is one vote short only with three voters. The cluster model lets a candidate poll
whenever one vote is missing, which is what the code intends and includes what it does, so every safety
theorem covers both. The theorem on reads is stated for both: with polls as written, reads are
linearizable for every number of voters but three.

**One replica** (`RaftNode`). The handlers as methods on fields. `Step` is proved to do exactly the
list of cluster actions that `StepActs` gives for the message, so a node's step extends a run
(`ReachesExtends`) and every theorem about runs holds of it. What `Step` needs of the node, `Seated`, a
new node has and every call keeps; what it needs of the message, `Sound`, holds of every message of a
run (`ClusterMessages`). Logs and indices are taken to fit in 64 bits. The commit index is computed by
the sorting code of `QuorumIndex`.

**Parts of a node.** `Witness`, `Tracker` (replication sets and quorums), `RaftLog` over `LogState`
(storage, unstable entries and pending snapshot as one logical log), `RawNode` over `ReadyPipeline`
(exactly-once delivery with asynchronous persistence), `ReadyDelivery` (nothing is withheld),
`ReadyElections` (what a new leader may rely on), `Inflights` (the ring buffer as a bounded queue),
`Replication` and `ProbeSearch` (flow control and the reject-hint search), `ReadOnly` (pending reads),
`Changer`, `ConfChanges`, `ConfMeaning` and `ConfRestore` (membership changes, where they put every
node, their log of deltas and the stored form). Classes are proved against functions on their value;
the properties are lemmas about those functions.

Indices and terms are unbounded; where the width matters (`u64::MAX` as the index of an empty half)
it is written out as `NO_LIMIT`. Timeouts, leases and priorities are parameters or unconstrained
choices. Storage follows the contract of the `Storage` trait.

Where documentation and code differ the model follows the code, apart from the poll as explained. The
witness compares a candidate with the last position it received, not with the committed one its field
comments name (`src/witness.rs:68`, `src/witness.rs:274`). `change_replication_set` leaves a half that needs no
change empty instead of keeping it (`src/tracker.rs:910`). That a single voter has persisted its log when
it becomes leader (`src/raft.rs:1661`) does not follow from the code, nor that the records it forgets
then are empty (`src/raw_node.rs:531`). `ReadyElections` proves that both hold exactly for elections
others vote in, with a run against each for a candidate that wins with its own vote alone. By
`ReportedIsPersisted` a host avoids both by letting a single voter campaign only once nothing is
unstable and every Ready with something to write has been reported.

## Model

| member | source | states |
|---|---|---|
| ClusterSafety.StateMachineSafety | src/raft.rs:1165-1214 | In every run, any two replicas at any two times hold the same entries up to every index both have committed, whichever path moved the commit index: quorum, witness shortcut, append, heartbeat, rejected vote, snapshot or read response |
| ClusterSafety.LeaderCompletenessOfRuns | src/raft.rs:1165-1214 | Once a leader commits a prefix, which its log holds, every leader of the same or a later term, at any later time, has it in its log, also when the deciding acknowledgment was the witness's, counted after the witness had voted for somebody else |
| ClusterSafety.ElectionSafety | src/raft.rs:2718-2771 | Two leaders of one term, at whatever times they lead, are the same replica |
| ClusterSafety.VoteOnce | src/raft.rs:1917-1961 | A replica or the witness that granted two real votes in one term, restarts in between or not, granted them to one candidate |
| ClusterSafety.PreVotesChangeNothing | src/raft.rs:1818-1832 | Asking for, answering, counting and polling the witness for pre-votes moves no replica's term, vote or log, nor the witness |
| ClusterSafety.LeaderAppendOnly | src/raft.rs:1414-1430 | While a replica leads one term its log only grows at the end |
| ClusterSafety.LogMatchingOfRuns | src/raft.rs:2983-3042 | Two logs, of any replicas at any times of a run, with the same term at an index are equal up to that index |
| ClusterSafety.TermsOrdered | src/raft.rs:1414-1430 | Along every replica's log terms are positive, never decrease and never exceed the replica's own term |
| ClusterSafety.CommittedAgree | src/raft.rs:1206-1214 | Any two committed prefixes agree where both reach, whoever holds them |
| ClusterSafety.ShortcutAcksBacked | src/raft.rs:1170-1204 | Whenever a leader counts the witness for an index, the witness has confirmed a write of some subterm not older than that entry, and one voter less than a quorum of regular voters of that subterm's replication set have acknowledged the index |
| ClusterSafety.ShortcutRaised | src/raft.rs:1170-1204 | The step that raises the witness's index: the write of the leader's own current subterm was confirmed with exactly its current replication set, and one voter less than a quorum of regular members of that set already matched the index |
| ClusterReads.ReadIndexSafety | src/raft.rs:2602-2632 | Whatever answer a replica gets at any later time, as a message or as a read state of its host, no replica had committed beyond it when the leader accepted the read, as long as read quorums meet the elections held: no witness, an even number of voters, or no election the witness decided |
| ClusterReads.AnswerIsAccepted | src/raft.rs:3398-3413 | Every answer a replica gets, in any run, is to a read of its own that a leader accepted before, and its index is exactly what that leader had committed then |
| StaleRead.ReadQuorumsMeetIff | src/raft.rs:944-964 | On sets of voters: counting the witness unasked, read quorums share a regular voter with every quorum of votes exactly when there is no witness or the number of voters is even |
| StaleRead.StaleReadRun | src/raft.rs:944-964 | For every witness configuration with an odd number of voters (as the poll is written: three) there is a run in which a deposed leader gives its host a read state with an index below what the new leader had committed when the read was accepted |
| StaleRead.ReadsLinearizableIff | src/raft.rs:2602-2632 | Over all runs of a configuration no read is answered stale if and only if: there is no witness, or, polling the witness as intended, the number of voters is even, or, polling it as the code is written, it is not three |
| ReadRuns.KeptReads | src/raft.rs:944-964 | The sufficient half, for both readings of the poll |
| ReadRuns.NoPolls | src/raft.rs:2751-2768 | As the poll is written, in no run of more than three voters is the witness ever asked for a vote |
| ReadRuns.WitnessDecidesNothing | src/witness.rs:126-133 | So its vote decides no election there |
| ClusterCommits.CommitLaw | src/raft.rs:1206-1214 | In every run, a commit attempt gets the commit index to k if and only if it was there or some own entry at or behind k is acknowledged by a quorum, counting the witness exactly if it was contacted in the current subterm and half of the voters in the replication set acknowledged that entry |
| ClusterCommits.WitnessRaisedIff | src/raft.rs:1170-1204 | A commit attempt counts the witness for k if and only if it was counted already or may be, told from the acknowledged indices; nobody else's index moves |
| ClusterCommits.ShortcutCommits | src/raft.rs:1170-1214 | With the witness contacted, an own entry that half of the voters, all regular members of the replication set, acknowledged is committed |
| ClusterCommits.WitnessAsked | src/raft.rs:1191-1203 | Before that, the attempt that finds half of the voters behind anything sends the witness the rest of the log and the replication set |
| ClusterRecovery.Recovers | src/raft.rs:1165-1214 | From every state of every run a continuation leads to this: a voter whose log is up to date with each replica of a quorum leads, new data is in the log and committed on all of the quorum, and a read is answered with it |
| WitnessRecovery.RecoversWithWitness | src/raft.rs:1165-1214 | The same with half of the voters and the witness, if the witness holds nothing later than the candidate's log, and at the same position its replication set covers the half |
| ClusterProgress.CanBeElected | src/raft.rs:2718-2771 | From every state of every run, whatever votes were cast and whoever led, a voter up to date with each replica of a quorum can win a term above all others, nobody else's log or commit index changing |
| ClusterProgress.CanBeElectedWithWitness | src/raft.rs:1080-1153 | The same with one regular vote less and the witness |
| ClusterProgress.CanWinPreVotes | src/raft.rs:1917-1961 | Such a voter, if not behind in term, gets the pre-votes of the quorum whatever votes and leaders they know, and nobody else changes |
| ClusterRecovery.CanServe | src/raft.rs:1165-1214 | A leader of the highest term can bring any quorum to its log, commit new data on it, have every member learn the commit index, and answer a read |
| ClusterRecovery.CanCatchUp | src/raft.rs:3067-3201 | A leader of the highest term can bring any replica to what it has committed by a snapshot |
| WitnessRecovery.CanServeWithWitness | src/raft.rs:1439-1471 | It can do so with half of the voters by swapping the witness in for a spare voter |
| WitnessRecovery.WitnessCommits | src/raft.rs:1170-1214 | An own entry half of the voters keep up with can be committed through the witness from any epoch state, asking the witness first where needed, unless a later term has reached it |
| ClusterAnswers.VoteAnswered | src/raft.rs:1917-1961 | A vote is granted if and only if it repeats the vote, or there is neither vote nor leader, and the candidate's log is not behind (and priority allows); it is recorded exactly then |
| ClusterAnswers.PreVoteAnswered | src/raft.rs:1917-1961 | A pre-vote for a later term is granted if and only if the candidate's log is not behind; for the current term the vote must be free; for an earlier one it is refused |
| ClusterAnswers.WitnessAnswered | src/witness.rs:193-344 | The witness's vote or pre-vote is granted if and only if it is free and the log shown ends later than what it holds, or at the same position with the voters inside its replication set; what it remembers afterwards |
| ClusterAnswers.WitnessStores | src/witness.rs:135-191 | In every run, a write that is not too late leaves the witness with the term, subterm and replication set of the leader and opens the shortcut; one that is tells the leader of the later term |
| ClusterAnswers.WitnessRejected | src/raft.rs:1299-1313 | A failed write changes nothing but that the witness may be asked again |
| ClusterAnswers.CommitLearned | src/raft.rs:2685-2716 | The commit index in a rejection or read answer is taken over if and only if the log holds the entry it names |
| ClusterAnswers.RefusalLearns | src/raft.rs:1950-1960 | So is that of a vote request when the vote is refused, and only then |
| ClusterAnswers.AppendAnswered | src/raft.rs:2983-3042 | In every run, an append is refused if and only if the log lacks the entry before it; an accepted one leaves its entries in the log and commits everything it tells of up to the acknowledged index |
| ClusterAnswers.HeartbeatAnswered | src/raft.rs:3046-3065 | A heartbeat's commit index is taken over as far as the log reaches, and its context comes back |
| ClusterAnswers.SnapshotAnswered | src/raft.rs:3067-3201 | In every run, after a snapshot the log starts with what it covers, all of it committed, and the commit index is acknowledged |
| ClusterAnswers.RestartsFrom | src/raft.rs:3328-3341 | A restarted replica has its term and vote, exactly the stored part of its log, and a commit index no less than the stored one |
| ClusterAnswers.StaleLeaderLearns | src/raft.rs:1848-1876 | A leader that hears back from a later term adopts it and steps down |
| ClusterSafety.RunInv | src/raft.rs:1778-1969 | Every state of every run satisfies the cluster invariant |
| ClusterSafety.StepInv | src/raft.rs:1778-1969 | Each of the thirty actions keeps the cluster invariant |
| ClusterSafety.InitInv | src/raft.rs:325-406 | The fresh cluster satisfies the invariant |
| ClusterSafety.RunGrows | src/raft.rs:1165-1243 | What was voted, acknowledged, elected, committed, confirmed or accepted for reading is never taken back along a run |
| ClusterMessages.Delivered | src/raft.rs:1778-1969 | Whatever message of a run reaches a replica: grants carry no commit index, granted pre-votes answer requests for at most the next term, acknowledgments come from others |
| ClusterMessages.RunSent | src/raft.rs:618-681 | The same as an invariant of all messages of every run |
| ClusterMessages.TermsRise | src/raft.rs:1379-1383 | No action takes a replica's term back |
| ClusterHistory.LeaderCompleteness | src/raft.rs:1165-1214 | An entry chosen in a term is in the log every later leader campaigned with, by induction over elections in the order they were held, with and without the witness's vote |
| ClusterHistory.WitnessElection | src/witness.rs:230-311 | The case of an election decided by the witness: its three-branch rule and the replication set give a voter that acknowledged the entry |
| ClusterHistory.MeetInReplicationSet | src/tracker.rs:1033-1061 | Inside a replication set, one less than a quorum of acknowledgments meets one less than a quorum of votes |
| ClusterHistory.MeetWithoutWitness | src/tracker.rs:1033-1061 | A full quorum of regular votes meets one less than a quorum of acknowledgments inside a replication set |
| ClusterHistory.QuorumMeetsElection | src/quorum/joint.rs:56-67 | A quorum of acknowledgments and the voters of any election have a replica in common |
| ClusterHistory.LogMatching | src/raft_log.rs:262-292 | Logs built from the leaders' logs that agree in term at an index are equal up to it |
| ClusterHistory.TermsGrow | src/raft.rs:1414-1430 | Terms do not decrease along a log built from the leaders' logs |
| ClusterHistory.SubtermsGrow | src/raft.rs:1439-1471 | Over a leader's own entries subterms do not decrease |
| ClusterHistory.GrantPosition | src/witness.rs:274-311 | A candidate the witness voted for is ahead of every subterm confirmed before, or the votes it showed lie in that subterm's replication set |
| Quorum.QuorumsIntersect | src/quorum/joint.rs:56-67 | Two quorums of a majority or joint configuration share a voter |
| ClusterQuietSteps.StepObserve | src/raft.rs:1818-1847 | The invariant survives adopting a later term |
| ClusterQuietSteps.StepStepDown | src/raft.rs:2745-2750 | The invariant survives giving up a candidacy or leadership |
| ClusterQuietSteps.StepPreCampaign | src/raft.rs:1623-1642 | The invariant survives starting a pre-candidacy |
| ClusterQuietSteps.StepRecvPreVote | src/raft.rs:1917-1961 | The invariant survives answering a pre-vote request, including the commit index taken over from it without adopting its term |
| ClusterQuietSteps.StepCommitFromVoteResp | src/raft.rs:2685-2716 | The invariant survives committing by the commit index a rejection reports |
| ClusterQuietSteps.StepRecvVoteResp | src/raft.rs:2800-2814 | The invariant survives counting a vote |
| ClusterQuietSteps.StepPollWitness | src/raft.rs:1080-1153 | The invariant survives asking the witness for its vote when one vote is missing |
| ClusterQuietSteps.StepRejectAppend | src/raft.rs:3017-3042 | The invariant survives rejecting an append that does not match |
| ClusterQuietSteps.StepRecvHeartbeat | src/raft.rs:3046-3065 | The invariant survives committing by a heartbeat, clamped to the log |
| ClusterQuietSteps.StepRecvReadResp | src/raft.rs:2915-2934 | The invariant survives committing by a read response |
| ClusterQuietSteps.StepRejectStale | src/raft.rs:1848-1876 | The invariant survives telling the sender of an old append or heartbeat the current term |
| ClusterQuietSteps.StepRecvAppendResp | src/raft.rs:2246-2249 | The invariant survives counting an acknowledgment |
| ClusterQuietSteps.StepRecvHeartbeatResp | src/raft.rs:2326-2333 | The invariant survives counting a read acknowledgment |
| ClusterQuietSteps.StepSendAppend | src/raft.rs:733-749 | The invariant survives sending any stretch of the leader's log |
| ClusterQuietSteps.StepSendHeartbeat | src/raft.rs:860-882 | The invariant survives sending a heartbeat with the smaller of the peer's match and the commit index |
| ClusterQuietSteps.StepSendSnapshot | src/raft.rs:683-731 | The invariant survives sending a snapshot of a committed prefix |
| ClusterQuietSteps.StepRestart | src/raft.rs:3328-3341 | The invariant survives restarting with what was durable |
| ClusterAckSteps.StepRecvAppend | src/raft.rs:2983-3042 | The invariant survives accepting or rejecting an append, conflicting suffix replaced |
| ClusterAckSteps.StepRecvSnapshot | src/raft.rs:3067-3201 | The invariant survives restoring, fast-forwarding to or ignoring a snapshot |
| ClusterAckSteps.StepPersist | src/raft.rs:1474-1506 | The invariant survives a leader's own entries reaching storage |
| ClusterVoteSteps.StepCampaign | src/raft.rs:1600-1616 | The invariant survives starting a candidacy |
| ClusterVoteSteps.StepRecvVote | src/raft.rs:1917-1961 | The invariant survives answering a vote request |
| ClusterVoteSteps.StepWitnessVote | src/witness.rs:193-344 | The invariant survives the witness answering a vote or pre-vote request |
| ClusterElectStep.StepElect | src/raft.rs:1650-1704 | The invariant survives a candidate with a quorum becoming leader |
| ClusterAppendSteps.StepPropose | src/raft.rs:1414-1430 | The invariant survives a leader appending an entry |
| ClusterAppendSteps.StepNewSubterm | src/raft.rs:1439-1471 | The invariant survives a leader starting a new subterm |
| ClusterCommitStep.StepMaybeCommit | src/raft.rs:1165-1243 | The invariant survives a leader committing, with the witness's acknowledgment synthesized or its append sent first |
| ClusterReadSteps.StepAcceptRead | src/raft.rs:2602-2632 | The invariant survives a leader accepting a read |
| ClusterReadSteps.StepReleaseReads | src/raft.rs:2298-2340 | The invariant survives a leader releasing reads |
| ClusterWitnessStep.StepWitnessWrite | src/witness.rs:135-191 | The invariant survives the witness storing an append and the leader hearing of it |
| ClusterQuietSteps.HeartbeatCommits | src/raft.rs:860-882 | What a heartbeat may commit its receiver had acknowledged to that very leader, so it is in its log |
| ClusterQuietSteps.CommitAtOk | src/raft_log.rs:525-537 | Committing an index whose entry has the reported term commits exactly what was reported |
| ClusterAckSteps.SplicedShape | src/raft_log.rs:262-292 | After an accepted append the log is unchanged and held the entries, or is the leader's log up to the last of them because some entry differed |
| ClusterElectStep.OneWinner | src/quorum/joint.rs:56-67 | One vote per voter and meeting quorums leave one winner per term |
| ClusterElectStep.NotYetElected | src/raft.rs:1650-1704 | Nobody has led the term a candidate is about to win |
| ClusterCommitStep.ShortcutInLog | src/raft.rs:1170-1204 | One less than a quorum together with the leader cannot have acknowledged more than the leader's log holds, stale acknowledgments included |
| ClusterCommitStep.ShortcutBacked | src/raft.rs:1170-1204 | The shortcut raises the witness's index only to what its replication set stands behind, although the witness's own index is among those counted |
| ClusterCommitStep.CountedChosen | src/raft.rs:1206-1214 | An own entry for which the leader counts a quorum is chosen: acknowledged by a quorum, or by one less inside a confirmed replication set |
| ClusterReadSteps.ReadQuorumMeetsVotes | src/raft.rs:944-964 | A read quorum and a quorum of votes share a regular voter where reads are safe by numbers or the witness did not vote |
| RaftNodeObject.RaftNode.constructor | src/raft.rs:325-406 | A new node is the fresh replica of the cluster and satisfies what every call keeps, for any configuration |
| RaftNodeObject.RaftNode.Step | src/raft.rs:1778-1969 | Whatever message of a run arrives, at a voter or a learner, the node changes and sends exactly what the cluster actions listed for that message do, in that order, and keeps its own invariant for the next call |
| RaftNodeObject.RaftNode.CheckTerm | src/raft.rs:1782-1847 | A later term is adopted except by pre-votes, and vote requests within the lease are ignored without a trace |
| RaftNodeObject.RaftNode.StepStale | src/raft.rs:1848-1910 | Messages of an earlier term change nothing; leaders are told the term, pre-votes refused |
| RaftNodeObject.RaftNode.StepCurrent | src/raft.rs:1915-1968 | A message of the current term does the cluster action of its kind and the node's role, or nothing |
| RaftNodeObject.RaftNode.StepVote | src/raft.rs:1917-1961 | A vote request is one vote or pre-vote action of the cluster, with its one answer |
| RaftNodeObject.RaftNode.AnswerVote | src/raft.rs:1917-1961 | The answer is a grant if and only if the request's last position is not behind the log and the vote is the sender's, or free without a leader, or it is a pre-vote for a later term (and priority allows); a real grant is recorded, and a refusal carries and takes over commit information |
| RaftNodeObject.RaftNode.CommitByVote | src/raft.rs:2685-2716 | A non-leader moves its commit index to the reported one exactly if it holds an entry of the reported term there |
| RaftNodeObject.RaftNode.StepVoteResp | src/raft.rs:2800-2814 | Counts the vote, decides the election, then takes over the reported commit index |
| RaftNodeObject.RaftNode.Poll | src/raft.rs:2718-2771 | A quorum elects or turns a pre-candidate into a candidate, an election no outcome of the missing votes could win is given up, anything else waits |
| RaftNodeObject.RaftNode.Campaign | src/raft.rs:1710-1761 | A candidacy or pre-candidacy votes for oneself and is decided at once where that vote is a quorum, so that a single voter leads without a message |
| RaftNodeObject.RaftNode.StandForElection | src/raft.rs:1600-1616 | A candidacy raises the term, votes for oneself and asks the others; alone it wins at once |
| RaftNodeObject.RaftNode.BecomeLeader | src/raft.rs:1650-1704 | A leader starts at subterm 0 without the witness, counts itself up to what was stored, and appends an empty entry |
| RaftNodeObject.RaftNode.StepFollow | src/raft.rs:2855-2869 | An append, heartbeat or snapshot makes the node follow its sender and is the cluster's action of that kind: conflicting suffix replaced, commit clamped to the log, old snapshots ignored, with one answer |
| RaftNodeObject.RaftNode.HandleAppend | src/raft.rs:2983-3042 | The log, commit index and answer are those of the cluster's append, committed prefix and matching suffix kept |
| RaftNodeObject.RaftNode.FindConflict | src/raft_log.rs:195-211 | The loop finds the first entry the log does not hold |
| RaftNodeObject.RaftNode.StepAppendResp | src/raft.rs:2246-2273 | A new acknowledgment raises the peer's index and reconsiders the commit index, an old one does nothing |
| RaftNodeObject.RaftNode.TryCommit | src/raft.rs:1165-1214 | Computes with the sorting loops the shortcut and quorum indices the cluster's commit action is defined by, and commits only entries of the own term |
| RaftNodeObject.RaftNode.TakeShortcut | src/raft.rs:1170-1204 | The witness's index becomes the larger of the old and the given one if it was contacted in this subterm, nobody else's moving; otherwise it is sent the log once |
| RaftNodeObject.RaftNode.StepHeartbeatResp | src/raft.rs:2326-2339 | A read acknowledgment is counted, and a quorum releases the request with all before it |
| RaftNodeObject.RaftNode.Release | src/raft.rs:2335-2339 | Each released read leaves the queue and is answered with the index it was accepted at: own ones as a read state, those of other replicas by a message |
| RaftNodeObject.RaftNode.AcceptRead | src/raft.rs:2602-2632 | A read is dropped before a commit in the own term, answered at once by a single voter, else queued, and released at once when leader and witness are a quorum |
| RaftNodeObject.RaftNode.StepReadResp | src/raft.rs:2915-2934 | The answer to an own read becomes a read state and moves the commit index if the log holds an entry of that term there |
| RaftNodeObject.RaftNode.Propose | src/raft.rs:1414-1430 | A proposal is appended with the leader's term and subterm |
| RaftNodeObject.RaftNode.OnPersist | src/raft.rs:1474-1506 | Stored entries count for the leader itself if index and term fit, and may commit; other roles have nothing left to store |
| RaftNodeObject.RaftNode.StartSubterm | src/raft.rs:1439-1471 | The next subterm leaves out the given voter and begins with an empty entry |
| RaftNodeObject.RaftNode.ConfirmWitness | src/raft.rs:1252-1291 | A confirmed write of the current subterm activates the shortcut and reconsiders the commit index; a late confirmation does nothing, one at subterm 0 changes no state of the witness |
| RaftNodeObject.RaftNode.RejectWitness | src/raft.rs:1299-1321 | A failed write of the current subterm may be sent again; a late report does nothing |
| RaftNodeObject.ReachesUnique | src/raft.rs:1778-1969 | The actions of a step determine the state it leads to |
| RaftNodeObject.ReachesExtends | src/raft.rs:1778-1969 | What a step does extends any run of the cluster, so all theorems about runs hold of it |
| WitnessObject.Witness.constructor | src/witness.rs:84-89 | A new witness has seen nothing |
| WitnessObject.Witness.HandleAppend | src/witness.rs:135-191 | Refuses stale terms with its own; otherwise takes over term, leader, replication set, last position and a higher commit index with its position, and exactly that is handed out to be stored |
| WitnessObject.Witness.HandleVote | src/witness.rs:193-344 | Ignores stale requests; otherwise grants if and only if the vote is free and one of the three branches on position and replication set holds, and pre-votes change nothing |
| WitnessObject.Witness.AllInSet | src/witness.rs:230-238 | Says whether everybody who voted for the candidate is in the replication set |
| WitnessObject.Witness.Restore | src/witness.rs:92-102 | A restored witness is the one whose state was stored |
| WitnessObject.Witness.ToHardState | src/witness.rs:105-120 | The stored state stands for the witness, its replication set listed in some order |
| WitnessObject.Witness.Reopened | src/witness.rs:92-120 | Storing and restoring gives back the same witness |
| Tracker.LeaderInSet | src/tracker.rs:904-907 | The leader is always in its own replication set |
| Tracker.SwapKeeps | src/tracker.rs:908-1029 | Swapping one voter out keeps: set and excluded node are the voters, disjoint, the leader inside |
| Tracker.AdjustedOk | src/tracker.rs:908-1029 | A half that satisfies the invariant and needs an adjustment leaves a voter out, and satisfies it again afterwards |
| Tracker.ResetKeeps | src/tracker.rs:836-881 | A reset establishes the same invariant |
| Tracker.FindInactive | src/tracker.rs:937-947 | Finds an unreachable member other than the leader whenever there is one |
| Tracker.AdjustHalf | src/tracker.rs:918-1021 | A half is swapped exactly when an excluded node recovers or a member is unreachable. On recovery the excluded node comes in for an unreachable one, or else for the witness; otherwise the witness comes in for an unreachable member |
| Tracker.ProgressTracker.constructor | src/tracker.rs:644-660 | A new tracker has no voters, votes or progress |
| Tracker.ProgressTracker.ResetReplicationSet | src/tracker.rs:836-881 | All regular voters are in, the witness out as long as there are two of them, the subterm restarts or advances, and the replication-set invariant holds of both halves |
| Tracker.ProgressTracker.ChangeReplicationSet | src/tracker.rs:908-1029 | Something changes exactly when some half needs it; adjusted halves are swapped and keep the replication-set invariant, the others are left empty, and a new subterm begins |
| Tracker.ProgressTracker.ShortcutIndex | src/tracker.rs:1033-1061 | The largest index acknowledged by one less than a quorum inside the replication set, whenever the witness is part of it |
| Tracker.ProgressTracker.RecordVote | src/tracker.rs:733-735 | The first vote of a voter stays |
| Tracker.ProgressTracker.MaximalCommittedIndex | src/tracker.rs:720-724 | The largest index a quorum acknowledged, or the group commit index of both halves |
| Tracker.ProgressTracker.TallyVotes | src/tracker.rs:739-761 | Counts grants and rejections of voters only; won exactly with a quorum, lost exactly when no way of casting the missing votes wins |
| Tracker.ProgressTracker.QuorumRecentlyActive | src/tracker.rs:772-796 | Answers whether the recently active, the asker and witnesses are a quorum, and clears the marks of the others |
| Tracker.ResetRepresents | src/tracker.rs:836-881 | The reset epoch is the one the cluster's new leader starts with |
| Tracker.ChangeIsNewSubterm | src/tracker.rs:908-1029 | An adjustment is exactly a new subterm of the cluster model, with the same replication set |
| Tracker.CommitIndexIs | src/tracker.rs:720-724 | The computed joint index is the one the cluster's commit rule uses, and only that |
| Tracker.ShortcutIndexIs | src/tracker.rs:1033-1061 | The computed scoped index is the shortcut index of the cluster's commit rule |
| QuorumIndex.SortDescending | src/quorum/majority.rs:70-124 | The array is sorted in place and still lists each voter's acknowledgment once |
| QuorumIndex.SortedPosition | src/quorum/majority.rs:94-98 | Position p of the sorted acknowledgments is the largest index p + 1 voters reached |
| QuorumIndex.CommittedIndex | src/quorum/majority.rs:70-124 | Returns the largest index a majority acknowledged, or the group commit index; an empty half limits nothing |
| QuorumIndex.GroupIndex | src/quorum/majority.rs:102-124 | Two groups: the largest majority index also present in two of them; one group: the plain index; else the minimum |
| QuorumIndex.GroupCommitUnique | src/quorum/majority.rs:102-124 | That specification has one answer, whatever order the hash set is visited in |
| QuorumIndex.LargestReachedUnique | src/quorum/majority.rs:70-100 | So has the plain one |
| QuorumIndex.OneLessThanQuorum | src/quorum/majority.rs:132-162 | Returns the largest index one voter less than a majority acknowledged, but at least one voter |
| QuorumIndex.MajorityVoteResult | src/quorum/majority.rs:166-190 | Won exactly with a majority, lost exactly when even all missing votes would not do, and how many are short while pending |
| QuorumIndex.JointIsMin | src/quorum/joint.rs:47-51 | The smaller of both halves' indices is the largest index a joint quorum acknowledged |
| QuorumIndex.JointCommittedIndex | src/quorum/joint.rs:47-51 | Returns the largest index acknowledged by a quorum of both halves, or the smaller group commit index |
| QuorumIndex.BestCase | src/quorum/joint.rs:56-67 | An election can still be won exactly if it is won with all missing votes granted |
| QuorumIndex.JointVoteResult | src/quorum/joint.rs:56-91 | Won exactly with a joint quorum, lost exactly when no way of casting the missing votes wins, and how many votes each half is short |
| QuorumIndex.HasQuorum | src/tracker.rs:799-804 | Answers exactly whether the ids are a joint quorum |
| LogState.QueriesMeanView | src/raft_log.rs:135-177 | First index, last index and term, stitched from storage, pending snapshot and memory, are those of one logical log |
| LogState.AppendMeaning | src/raft_log.rs:377-398 | Appending rewrites the logical log behind one index and nothing else |
| LogState.AppendKeepsCommitted | src/raft_log.rs:377-398 | No append alters a committed entry |
| LogState.MaybeAppendMeaning | src/raft_log.rs:262-292 | An accepted append keeps the logical log up to the first conflict, continues with the entries, and moves commit and persisted exactly as far as that allows |
| LogState.MaybeAppendHolds | src/raft_log.rs:262-292 | Afterwards the log holds every entry sent, with its term |
| LogState.MaybeAppendIsSplice | src/raft_log.rs:262-292 | On an uncompacted log this is the append of the cluster model |
| LogState.RestoreMeaning | src/raft_log.rs:689-710 | After a restore the logical log is empty behind the snapshot |
| LogState.StableMeaning | src/log_unstable.rs:129-176 | Writing moves the border between memory and storage, not the logical log |
| LogState.CompactMeaning | src/storage.rs:106-160 | Compaction up to an applied index forgets a prefix and keeps the term in front of the rest |
| LogState.MaybePersistStays | src/raft_log.rs:540-569 | Moving the persisted index keeps the pointers in order and the log as it is |
| LogState.MaybePersistSnapStays | src/raft_log.rs:572-599 | The same for a snapshot that was written |
| LogState.MaybeCommitStays | src/raft_log.rs:525-537 | The same for the commit index, which stays inside the log |
| LogState.NextUpMeans | src/raft_log.rs:442-465 | What may be handed out next is, entry by entry, the logical log between the given index and the smaller of the commit and persisted indices |
| RaftLogObject.Unstable.constructor | src/log_unstable.rs:55-63 | Nothing is unstable at first |
| RaftLogObject.Unstable.TruncateAndAppend | src/log_unstable.rs:192-215 | The entries replace what they overlap, in all three positions relative to the offset, and the size stays right |
| RaftLogObject.Unstable.StableEntries | src/log_unstable.rs:129-155 | All entries leave memory and the offset is behind the last of them |
| RaftLogObject.Unstable.StableSnap | src/log_unstable.rs:158-176 | The pending snapshot is forgotten, nothing else |
| RaftLogObject.Unstable.Restore | src/log_unstable.rs:179-185 | Only the snapshot is left, the offset behind it |
| RaftLogObject.RaftLog.constructor | src/raft_log.rs:91-104 | A log over a storage shows what is stored |
| RaftLogObject.RaftLog.First | src/raft_log.rs:160-165 | The first index of the logical log |
| RaftLogObject.RaftLog.LastAt | src/raft_log.rs:172-177 | The last index of the logical log |
| RaftLogObject.RaftLog.Term | src/raft_log.rs:135-153 | The term of the logical log at any index, 0 outside it |
| RaftLogObject.RaftLog.FindConflict | src/raft_log.rs:195-211 | The first index where the entries disagree with the log, 0 if nowhere |
| RaftLogObject.RaftLog.FindConflictByTerm | src/raft_log.rs:222-248 | The largest index up to the given one whose term is at most the given one, and that term; beyond the log the index itself |
| RaftLogObject.RaftLog.IsUpToDate | src/raft_log.rs:437-439 | Exactly Raft's comparison of last term, then last index |
| RaftLogObject.RaftLog.AppendBehind | src/raft_log.rs:377-398 | The logical log is overwritten behind the given index |
| RaftLogObject.RaftLog.TryAppend | src/raft_log.rs:262-292 | Refuses exactly on a term mismatch and then changes nothing; else the new state and the conflict and last index |
| RaftLogObject.RaftLog.Commit | src/raft_log.rs:299-313 | The commit index never moves back |
| RaftLogObject.RaftLog.TryCommit | src/raft_log.rs:525-537 | Commits exactly if the index is new and its term fits |
| RaftLogObject.RaftLog.TryPersist | src/raft_log.rs:540-569 | The persisted index moves to the given one if and only if that is further, in front of everything unstable, and storage holds an entry of that term there |
| RaftLogObject.RaftLog.TryPersistSnap | src/raft_log.rs:572-599 | The same for a snapshot; the fatal branches are excluded |
| RaftLogObject.RaftLog.RestoreFrom | src/raft_log.rs:689-710 | The logical log is the snapshot alone and the persisted index does not exceed the old commit index |
| RaftLogObject.RaftLog.Stabilize | src/log_unstable.rs:129-176 | Given the snapshot index and the last index and term of a Ready's record, the logical log stays the same when what they describe was written |
| RaftLogObject.LimitParts | src/raft_log.rs:655-685 | Limiting the stored part first and stopping when it was cut gives the limited whole |
| RaftLogObject.RaftLog.Slice | src/raft_log.rs:638-686 | Compacted exactly below the first index, else the size-limited prefix of the logical slice across storage and memory |
| RaftLogObject.RaftLog.Entries | src/raft_log.rs:401-413 | The size-limited rest of the logical log from an index on |
| RaftLogObject.RaftLog.Scan | src/raft_log.rs:610-634 | For every page size the scan ends, its pages are not empty and join to the whole logical slice unless the visitor stops it |
| RaftLogObject.RaftLog.NextEntriesSince | src/raft_log.rs:442-465 | The entries of the logical log right behind an index that are committed and persisted: all of them without a limit, at least one otherwise if there is any, and the longest prefix within the size |
| EntryLimits.LimitSize | src/util.rs:51-74 | The longest prefix within the size, but never nothing of something |
| EntryLimits.LimitedUnique | src/util.rs:51-74 | There is only one such prefix |
| ReadyPipeline.ExactDelivery | src/raw_node.rs:487-590 | Over every run what the application was handed is the committed log from its start on, without gap, repetition or reordering, jumping only to installed snapshots |
| ReadyPipeline.ExactlyOnce | src/raw_node.rs:487-507 | Without snapshots the entries handed out, joined, are exactly a stretch of the committed log |
| ReadyPipeline.HandedIsDurable | src/raw_node.rs:487-507 | Entries are committed and persisted at the moment they are handed out |
| ReadyPipeline.PersistencePointers | src/raft_log.rs:540-599 | In every run persisted is below the unstable offset and a pending snapshot's index, committed inside the log, applied at most what was handed out |
| ReadyPipeline.ChecksHold | src/raw_node.rs:517-590 | The code's own assertions never fail in any run: on delivery, on persisted snapshots with any number in flight, on the record of a Ready handed back (number, snapshot index, last index and term), and on the records drained by a leader others voted for |
| ReadyElections.WinnersPersistedIff | src/raft.rs:1660-1666 | The assertion in become_leader, over all runs and winners: a candidate that wins has persisted its whole log, if and only if others had to vote for it; a single voter that wins with its own vote may not have |
| ReadyElections.WinnerIsPersisted | src/raft.rs:1660-1666 | The sufficient half: vote requests leave with a persisted Ready, and a candidate's log does not change |
| ReadyElections.LaggingRun | src/raft.rs:1720-1724 | The run of a single voter that leads, appends, steps down and wins again before its entry is persisted |
| ReadyElections.DrainsBlankIff | src/raw_node.rs:530-538 | The assertions on drained records, over all runs: they had no entry and no snapshot, if and only if others had to vote for the leader |
| ReadyElections.LateReportRun | src/raw_node.rs:661-687 | The run in which an entry stored twice is persisted by the first report, so that a candidate that wins with its own vote alone passes the assertion in become_leader and fails the one on drained records |
| ReadyPipeline.ReportedIsPersisted | src/raw_node.rs:661-687 | Once nothing is unstable and no record has anything left to report, the persisted index is the last index: what the host of a single voter can see to before it campaigns |
| ReadyDelivery.EverythingDelivered | src/raw_node.rs:517-590 | From every state of every run, and with any size limit, the host can go on until the application has got to the end of the committed log, exactly once and in order |
| ReadyDelivery.TakesWhatIsReady | src/raw_node.rs:487-507 | In every run a Ready without a limit hands out everything committed and persisted, one with a limit something as long as there is something, and a pending snapshot goes first |
| ReadyDelivery.ReportCounts | src/raw_node.rs:661-687 | In every run a reported write that the log still agrees with is persisted, a snapshot always |
| ReadyPipeline.StepInv | src/raw_node.rs:487-743 | Every call of the node or the host keeps the pipeline invariant |
| ReadyPipeline.RunInv | src/raw_node.rs:487-743 | Every state of every run satisfies it |
| RawNodeObject.RawNode.constructor | src/raw_node.rs:326-345 | A new node starts a run of the pipeline |
| RawNodeObject.RawNode.NextCommitted | src/raw_node.rs:487-507 | Hands out the next committed and persisted entries of the logical log, withholding none without a limit, and moves past exactly them |
| RawNodeObject.RawNode.Ready | src/raw_node.rs:517-590 | Is the pipeline's Ready: everything unstable to write, the pending snapshot to install, and the next entries to apply; also tells whether the records a new leader drains had nothing to write, which is sure if others voted for it |
| RawNodeObject.RawNode.CommitReady | src/raw_node.rs:632-648 | Takes number, snapshot and last entry from the last record, which is that of the Ready handed back; what it describes is no longer unstable |
| RawNodeObject.RawNode.Drain | src/raw_node.rs:530-538 | A new leader forgets the records before it; the result of the code's check of them is told, and is sure if others voted for the leader |
| RawNodeObject.RawNode.LightReady | src/raw_node.rs:713-731 | Is the pipeline's light Ready |
| RawNodeObject.RawNode.OnPersistReady | src/raw_node.rs:661-687 | Pops exactly the records up to the number and reports the newest snapshot and entry they wrote |
| InflightWindow.Inflights.constructor | src/tracker/inflights.rs:39-47 | An empty window of the given size |
| InflightWindow.Inflights.Full | src/tracker/inflights.rs:87-89 | Full exactly at the limit in force, a deferred smaller one included |
| InflightWindow.Inflights.Add | src/tracker/inflights.rs:92-115 | The queue gains the index at its end, wrapping or growing the buffer |
| InflightWindow.Inflights.FreeTo | src/tracker/inflights.rs:118-152 | Drops exactly the longest prefix up to the index, and applies a deferred limit when empty |
| InflightWindow.Inflights.FreeFirstOne | src/tracker/inflights.rs:156-161 | Drops up to the first index, nothing of an empty queue |
| InflightWindow.Inflights.Reset | src/tracker/inflights.rs:165-170 | Empties the queue and applies a deferred limit |
| InflightWindow.Inflights.SetCap | src/tracker/inflights.rs:51-83 | The limit changes and the queue does not, also when growing while wrapped; a shrink is deferred exactly while the queue is not empty |
| InflightWindow.Inflights.MaybeFreeBuffer | src/tracker/inflights.rs:195-201 | Releases the buffer of an empty queue, and nothing else is visible |
| InflightWindow.DropUpToUnique | src/tracker/inflights.rs:118-152 | Only one suffix is left by dropping the longest prefix up to an index |
| InflightWindow.FreedIncreasing | src/tracker/inflights.rs:118-152 | A strictly increasing window stays so and keeps only later indices |
| InflightWindow.FirstOnly | src/tracker/inflights.rs:156-161 | In a strictly increasing window freeing the first index frees it alone |
| Replication.Progress.constructor | src/tracker/progress.rs:65-79 | A new peer is probed from the given index |
| Replication.Progress.BecomeProbe | src/tracker/progress.rs:100-112 | Probing starts behind what matched or the snapshot sent, whichever is later |
| Replication.Progress.BecomeReplicate | src/tracker/progress.rs:116-119 | Replication starts behind what matched with an empty window |
| Replication.Progress.BecomeSnapshot | src/tracker/progress.rs:123-126 | The snapshot is pending, indices unchanged, window empty |
| Replication.Progress.MaybeUpdate | src/tracker/progress.rs:142-154 | Neither matched nor next index moves back, and matched stays below next |
| Replication.Progress.MaybeDecrTo | src/tracker/progress.rs:172-210 | Stale rejections, told exactly, change nothing; others move the next index back, never to what matched, or note the requested snapshot |
| Replication.Progress.IsPaused | src/tracker/progress.rs:214-220 | Paused exactly by the probe flag, the full window or a snapshot |
| Replication.Progress.UpdateState | src/tracker/progress.rs:235-247 | Sent entries enter the window, which stays strictly increasing and below the next index |
| Replication.MaybeSendAppend | src/raft.rs:798-857 | The message carries the size-limited log behind the next index, and nothing is sent exactly when paused or empty and not wanted |
| Replication.SendAggressively | src/raft.rs:787-791 | The loop ends with a full window or exhausted log, and its consecutive messages join to the log between the old and new next index |
| ProbeSearch.AcceptsIff | src/raft.rs:2983-3042 | A probe is accepted exactly up to the last index where both logs agree |
| ProbeSearch.HintUnique | src/raft_log.rs:222-248 | The hint is the only index the search loop can return |
| ProbeSearch.ProbeSound | src/raft.rs:2081-2183 | A rejected probe is followed by a strictly lower one, never below the last agreeing index |
| ProbeSearch.ProbesConverge | src/raft.rs:2081-2241 | From any start the probes end at the last agreeing index, where the append is accepted |
| ProbeSearch.Hint | src/raft.rs:3023-3038 | The follower's hint and its term |
| ProbeSearch.OwnHint | src/raft.rs:2081-2183 | The leader's refinement of the hint in its own log |
| ProbeSearch.RejectedProbe | src/raft.rs:2081-2241 | The rejection handler moves the peer's next index exactly to that next probe |
| ReadOnlyObject.ReadOnly.constructor | src/read_only.rs:68-74 | No reads are pending at first |
| ReadOnlyObject.ReadOnly.AddRequest | src/read_only.rs:82-95 | A new request is queued with the leader's acknowledgment, a known one ignored |
| ReadOnlyObject.ReadOnly.RecvAck | src/read_only.rs:100-105 | An acknowledgment of a pending request is recorded and all of its acknowledgments returned |
| ReadOnlyObject.ReadOnly.Advance | src/read_only.rs:110-125 | Removes and returns the requests up to and including the context, in order, from map and queue alike; nothing if it is unknown |
| ReadOnlyObject.AdvanceIs | src/read_only.rs:110-125 | What the cluster's release of reads means is dropping a prefix of the queue |
| ConfChanges.ReplayIsContains | src/confchange/changer.rs:27-33 | Replaying the change log gives exactly the ids it was said to contain while being written |
| ConfChanges.OneKeeps | src/confchange/changer.rs:175-286 | Each single change keeps ids and configuration in step and leaves the outgoing half alone |
| ConfChanges.TransitKeeps | src/confchange/changer.rs:68-170 | So does every successful transition, and the configuration invariants hold after it |
| ConfChanges.HistoryExact | src/confchange/changer.rs:68-170 | After any history of successful changes the progress ids are exactly incoming, outgoing and learners, and all invariants hold |
| ConfChanges.QuorumsOverlap | src/confchange/changer.rs:68-170 | Every quorum of a configuration shares a voter with every quorum of the one a successful simple, enter-joint or leave-joint change leads to |
| ConfChanges.HistoryOverlaps | src/confchange/changer.rs:68-170 | Along any history of successful changes, every quorum of a configuration with voters shares a voter with every quorum of the next |
| ConfChanges.SimpleFailsIff | src/confchange/changer.rs:148-170 | A simple change fails exactly if no voter is left, more than one voter changes, or it demotes the incoming witness to learner |
| ConfChanges.JointFailsIff | src/confchange/changer.rs:68-95 | Entering a joint configuration fails exactly if no voter is left or the witness is demoted |
| ConfChanges.LeaveSucceeds | src/confchange/changer.rs:110-142 | Leaving a joint configuration always succeeds |
| ConfMeaning.JointThenLeave | src/confchange/changer.rs:68-142 | Entering a joint configuration and leaving it gives exactly the configuration and progress ids that the changes give directly |
| ConfMeaning.JointIsSimple | src/confchange/changer.rs:68-170 | Whatever may be changed in one simple step may be changed jointly, with the same outcome |
| ConfMeaning.ChangesMean | src/confchange/changer.rs:175-287 | The last change of a node decides what becomes of it: voter, learner, staged learner, or none of them |
| ConfMeaning.WitnessMeans | src/confchange/changer.rs:175-287 | The incoming witness is the one named last, or the old one, unless it was removed since |
| ConfMeaning.LeaveMeans | src/confchange/changer.rs:110-142 | Leaving keeps the incoming voters and witness, turns staged learners into learners, and forgets everybody else |
| ConfMeaning.EnterMeans | src/confchange/changer.rs:68-108 | Entering keeps the old voters as the outgoing half and places every node by its last change |
| ConfMeaning.SimpleMeans | src/confchange/changer.rs:144-170 | A simple change places every node by its last change |
| ConfRestore.RoundTrip | src/confchange/restore.rs:14-116 | Restoring the stored form of any configuration reached by successful changes, in whatever order its ids are listed, rebuilds all of it, both witnesses and the progress ids included |
| ConfRestore.MajorityRoundTrip | src/confchange/restore.rs:100-116 | The case without an outgoing half |
| ConfRestore.JointRoundTrip | src/confchange/restore.rs:14-116 | The case of a joint configuration |
| ConfRestore.AddsSucceed | src/confchange/restore.rs:14-94 | Every intermediate single change that adds a voter or witness is accepted |
| ConfRestore.LearnersSucceed | src/confchange/restore.rs:14-94 | Every intermediate single change that adds a learner is accepted |
| ChangerObject.Editor.constructor | src/confchange/changer.rs:308-315 | A draft starts as a copy with an empty change log |
| ChangerObject.Editor.Has | src/confchange/changer.rs:27-33 | The backwards search over the change log answers exactly whether the id has a progress entry |
| ChangerObject.Editor.Voter | src/confchange/changer.rs:202-211 | Makes the id a voter, whatever it was |
| ChangerObject.Editor.Learner | src/confchange/changer.rs:224-248 | Makes the id a learner, or a learner-to-be while it still is an outgoing voter |
| ChangerObject.Editor.Witness | src/confchange/changer.rs:253-265 | Makes the id the incoming witness and a voter |
| ChangerObject.Editor.Drop | src/confchange/changer.rs:268-286 | Removes the id, its progress only when it is no outgoing voter |
| ChangerObject.Editor.Apply | src/confchange/changer.rs:175-199 | Applies all changes in order and fails exactly when no voter is left |
| ChangerObject.Editor.Check | src/confchange/changer.rs:321-399 | Accepts exactly the configurations that satisfy the invariants |
| ChangerObject.ConfTracker.constructor | src/tracker.rs:644-660 | An empty configuration |
| ChangerObject.ConfTracker.TrySimple | src/confchange/changer.rs:148-170 | Is the simple transition, configuration and change log alike, or its failure |
| ChangerObject.ConfTracker.TryEnterJoint | src/confchange/changer.rs:68-95 | Is the transition into a joint configuration, or its failure |
| ChangerObject.ConfTracker.TryLeaveJoint | src/confchange/changer.rs:110-142 | Is the transition out of it, or its failure |
| ChangerObject.ConfTracker.ApplyConf | src/tracker.rs:812-831 | The progress ids are the replay of the change log |
| ChangerObject.ConfTracker.RestoreFrom | src/confchange/restore.rs:100-116 | Is the restore of the round trip, failing where it fails |

## Left out

- ClusterReads.ReadIndexSafety: does not cover an odd number of voters once the witness has decided an election, because it is false there: StaleRead.StaleReadRun is the run and StaleRead.ReadsLinearizableIff the exact condition.
- ClusterSafety.LeaderCompletenessOfRuns: does not cover a joint configuration with a witness, or a witness beside a single regular voter (at subterm 0 the code takes the witness as contacted).
- ClusterWitnessStep.StepWitnessWrite: does not model a write that lands after its leader moved on; the host's write and its confirmation are one step on the latest append, as its conditional save is meant to ensure.
- Tracker.ProgressTracker.ChangeReplicationSet: a half that needs no change is left empty, as in the code, and of a half that breaks the invariant beforehand only whether it is adjusted is said; witness properties are about one half.
- Tracker.ProgressTracker.ShortcutIndex: covers the incoming half, and says what the index means for three or more voters.
- RaftNodeObject.RaftNode.Step: does not poll the witness when an election is pending (a separate cluster action), send heartbeats and appends, or keep flow control; those follow as further actions.
- RaftNodeObject.RaftNode.Poll: leaves asking the witness to the separate poll action.
- RaftNodeObject.RaftNode.CommitByVote: does not step down a candidate over a newly committed configuration change; entries have no kinds.
- RaftNodeObject.RaftNode.HandleAppend: the answer to a mismatch has no hint (ProbeSearch models the hints), and no snapshot is requested.
- RaftNodeObject.RaftNode.StepAppendResp: flow control and rejections are in Replication and ProbeSearch.
- RaftNodeObject.RaftNode.StepHeartbeatResp: flow control is in Replication.
- RaftNodeObject.RaftNode.ConfirmWitness: a confirmation means that the witness took the append, so its term was not behind the witness.
- RaftNodeObject.RaftNode.AcceptRead: the witness's acknowledgment is added when the quorum is looked at, not stored, and the heartbeats that follow are separate actions.
- RaftNodeObject.RaftNode.StepReadResp: read states stay where they are once given to the host, as a set; a Ready taking them away is not modelled.
- RaftNodeObject.RaftNode.StepFollow: a snapshot stands for the log prefix it covers; its configuration and the request-snapshot path are not modelled.
- Replication.MaybeSendAppend: without batching, towards a peer that asked for no snapshot, and with the log uncompacted, so no snapshot is sent instead.
- Replication.SendAggressively: for a replicating peer, under the same conditions.
- ProbeSearch.ProbesConverge: on uncompacted logs; below a compacted prefix the leader sends a snapshot.
- RawNodeObject.RawNode.Ready: messages, hard state and read states are not part of it; unpersisted entries are never applied (that limit is 0).
- RawNodeObject.RawNode.LightReady: messages and the announced commit index are not part of it.
- ReadyPipeline.ChecksHold: does not cover the records drained by a single voter that elected itself, because it is false there: ReadyElections.LateReportRun is the run and ReadyElections.DrainsBlankIff the exact condition. The pipeline does not track the configuration, so any candidate may turn out to be the only voter; in that run it copied entries from leaders of other terms before.
- ClusterQuietSteps.StepPollWitness: the poll is as intended, for any number of voters; as written it is a special case.
- RaftLogObject.RaftLog.AppendBehind: not below the persisted index, where a leader never appends; the cut maybe_append makes there, after which it lowers the index, is part of RaftLogObject.RaftLog.TryAppend.
- QuorumIndex.JointCommittedIndex: with commit groups a joint index is the smaller of both halves' group indices, which is all the code promises.
- Cluster runs while the configuration changes, and the scans for unapplied configuration changes before campaigning.
- Liveness under a scheduler: what can be done from every state is proved, not that timeouts and randomization bring it about; check-quorum timing, leadership transfer beyond the elections it causes.
- ClusterProgress.CanBeElectedWithWitness: polls the witness as intended; as the poll is written it takes three voters (ReadRuns.NoPolls).
- WitnessRecovery.RecoversWithWitness: polls as intended too.
- Lease-based reads.
- Vote priority, which only refuses votes that could be granted (`deny`).
- Uncommitted-size limits, proposal forwarding, group assignment, status and metrics.
- Memory: capacities, buffer shrinking, exact encoded sizes (an entry has some positive size).
- Temporarily unavailable entries and asynchronous fetching of log entries.
- The in-memory storage, logging, error values, protobuf encoding, configuration validation.
