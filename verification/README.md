# A verified model of consensus-raft

This project models the core of consensus-raft, an event-driven Raft peer with its log, its
persisted state and its simulated cluster, and proves what the program is for: one leader per term,
matching logs, agreement of committed entries, and the laws of the mechanisms underneath. `dafny
verify dfyconfig.toml` checks everything.

## How it is built

| file | what it holds |
|---|---|
| RaftLog, Persistence, Compaction | the log of one peer, its byte encoding, its compaction and iteration |
| NodeModel, Node, NodeLaws | one peer as functions on a value, as a mutable class proved against those functions, and what each call means, stated without them |
| NetworkModel | a cluster over a network that may lose, duplicate and reorder; a run is any list of events |
| Effects, History | the distinct things an event can do to a node; a record of every vote and leadership |
| Election, Merging, LogMatching, Safety, Commitment, StateMachineSafety | the invariants and the Raft theorems over every run |
| Witness, SelfWired, LoneNode | runs without the acknowledgement hypothesis, the simulator's own wiring, a single node |
| Quorum, Sorting, PeerTracker, Membership | quorum arithmetic, order statistics, one-peer changes |
| Simulator, Cluster, Partition, DriverLaws, DriverSafety | the drivers, what each of their calls means, and the theorems they inherit as refinements of the network |
| Stability, Backtracking, Availability | leader stability, catching up a follower, progress of a live majority |

Classes carry the mutable state where the program does (log, peer, tracker, iterator, cluster,
partitioned cluster). Each method's postcondition equates the new state with a function of the old
one; what those functions mean is proved as laws on the fields and entries (NodeLaws, DriverLaws), and
the theorems are about their runs.

Randomness appears as the value drawn (`Draw`, `Tape`), the order in which a map is visited as a
parameter or an arbitrary choice. Terms, indices and ids are natural numbers. Position 0 of a log
holds the dummy entry; id 0 means nobody.

## What the proofs found

- **A vote can be cast twice in one term.** A candidate that hears a leader of its own term clears
  its vote (`internal/node/node.go:411-415`) and may vote again; `VotesTwice` is such a run. That
  guard is the only way: `VoteLostIff` shows that an event changes a vote inside its term if and only
  if it hands a live candidate or leader an AppendEntries of that term. Election Safety holds
  nevertheless (`ElectionSafety`), because the vote is lost only once the term has its leader, and
  nobody who elected that leader ever loses a vote (`LostVoteIsUnbound`).
- **Acknowledgements can overstate.** A successful reply reports the follower's own last index
  (`internal/node/node.go:433` and 443). `AckTruthfulIff` says exactly when that index is outside
  what the follower shares with the leader: the follower already held the whole batch and has a
  surplus tail that ends differently from the leader's log. Commit safety is therefore false of some
  runs, and `CommitUnsafeWithoutHypothesis` is one in which two nodes commit different entries at
  index 1. State Machine Safety and Leader Completeness are proved for every run in which each
  acknowledgement lies inside the shared prefix (`AcksInside`). `AcksInsideIff` turns that into a
  check before each call: the hypothesis holds of a run if and only if no event finds a follower in
  that situation. `WithinBatchSuffices` gives a check that needs no leader's log.
- **The simulator wires every node as its own peer** (`internal/cluster/cluster.go:25-32`), while
  `majority` and `replicatedOnMajority` count the node itself separately. With that wiring vote
  quorums overlap only for odd sizes (`SelfWiredOverlapIffOdd`), and a leader follows its own
  heartbeat and forgets its vote. `SelfWiredSafeIffAlone` gives the consequence exactly: the
  simulated cluster of `n` nodes has at most one leader per term in all its uses if and only if
  `n <= 1`; for every larger size `SelfWiredElectionUnsafe` constructs a use of the driver, from
  the constructor's state, in which two nodes lead term 1. The protocol theorems assume that a node's
  peers are exactly the other nodes, as `membership.Config.OtherPeers` yields them
  (`OtherPeersWire`).
- **A cluster of one never elects anybody**, however it is wired (`LoneNodeNeverLeads`): votes are
  counted only when a reply arrives (`internal/node/node.go:390-404`), and nobody replies.

Where documentation and code differ the model follows the code: the repository's README says the
simulator asserts the Raft invariants, but `internal/cluster` asserts none; it promises
byte-for-byte reproducible runs, but `DeliverAll` visits a Go map, so the order of delivery is
arbitrary; the comment on `CommitTo` calls a request for the current commit index a regression, but the
code accepts it (`CommitLaw`).

## Model

| member | source | states |
|---|---|---|
| `Election.ElectionSafety` | internal/node/node.go:286-418 | Over every run with lost, duplicated and reordered messages, crashes and restarts, two nodes that lead the same term, at whatever two points of the run, are the same node. |
| `Election.ElectionHolds` | internal/node/node.go:266-575 | The invariant behind it, in every reachable state: binding votes are unique and kept, each leadership has a majority of recorded votes, every vote, vote request and AppendEntries in the network is backed by the record. |
| `Election.LostVoteIsUnbound` | internal/node/node.go:411-415 | A candidate that clears its vote inside a term is no member of the quorum that elected the leader of that term. |
| `Election.FirstLeader` | internal/node/node.go:390-404 | A node that wins in a term finds no earlier leadership recorded for that term. |
| `LogMatching.LogMatchingHolds` | internal/node/node.go:319-444 | In every run, with no hypothesis on acknowledgements: if two logs, of any nodes at any two points, hold the same term at an index, they are identical through it, commands included. |
| `LogMatching.ReachableLogShape` | internal/log/log.go:134-221 | In every reachable state each entry sits at its own index, terms never decrease, no entry is of a later term than the node, and the commit index is inside the log. |
| `LogMatching.LogsHold` | internal/node/node.go:319-444 | The invariant behind both: every log is, entry by entry, a prefix of the log of the leader of that entry's term, and every AppendEntries carries a stretch of its leader's log. |
| `LogMatching.ReachableRestart` | internal/node/node.go:528-575 | In every reachable state a crashed node whose integers fit 64 bits restarts without an error with term, vote and log intact and the commit index at 0. |
| `Safety.LeaderCompleteness` | internal/node/node.go:256-262 | An entry of term t that a majority led or acknowledged is in the log of every recorded leader of every later term. |
| `StateMachineSafety.LeaderCompletenessHolds` | internal/node/node.go:371-494 | Under the acknowledgement hypothesis, everything a node has committed stands in the log of every leader of a later term, whenever either is observed. |
| `StateMachineSafety.StateMachineSafetyHolds` | internal/node/node.go:406-494 | Under the acknowledgement hypothesis, the committed entries of any two nodes at any two points of a run agree wherever both commit indexes reach, across crashes and restarts. |
| `StateMachineSafety.CommittedListsAgree` | internal/log/log.go:224-231 | Under the same hypothesis, of the lists any two nodes report as committed, at any two points of a run, one is a prefix of the other. |
| `StateMachineSafety.CommittedEntriesSurvive` | internal/node/node.go:463-494 | Under the same hypothesis a node that stays up never loses or changes an entry it committed. |
| `StateMachineSafety.AcksInsideIff` | internal/node/node.go:425-443 | The acknowledgement hypothesis holds of a run if and only if no event finds, before the call, a follower that accepts a batch it already holds in full below a surplus tail not ending in the leader's entry, its acknowledgement being new. |
| `StateMachineSafety.AckEventIff` | internal/node/node.go:425-443 | In any state that satisfies the invariants, a successful acknowledgement is shared with its leader if and only if the follower was not in that situation. |
| `StateMachineSafety.WithinBatchSuffices` | internal/node/node.go:425-443 | The hypothesis holds on every run in which no follower is handed a batch it holds in full below a surplus tail. |
| `Merging.AckPastBatchIff` | internal/node/node.go:425-443 | An acknowledgement passes the end of its batch if and only if the batch was already held in full below a surplus tail. |
| `StateMachineSafety.FollowerCommitsSoundly` | internal/node/node.go:425-442 | In every run, with no hypothesis on acknowledgements: an AppendEntries whose commit index does not pass the end of its batch, delivered late, repeatedly or out of order, makes the follower newly commit only entries on which it agrees with the leader of the message's term. |
| `StateMachineSafety.AppendsCoverCommit` | internal/node/node.go:319-341 | In every run in which no next index passes its leader's end, every AppendEntries ever sent has a commit index within its batch. |
| `StateMachineSafety.FollowersCommitSoundly` | internal/node/node.go:319-442 | So in every such run every follower commits only entries of the leader of the term. |
| `StateMachineSafety.MergeCommitsShared` | internal/node/node.go:425-442 | For any two matching logs and any stretch of the leader's: what a merge lets the follower newly commit agrees with the leader. |
| `Commitment.AdvanceKeepsSafety` | internal/node/node.go:406-494 | Every event whose acknowledgement is inside the shared prefix keeps the whole safety invariant: holders keep what they acknowledged, commits are covered by chosen entries. |
| `Merging.AckTruthfulIff` | internal/node/node.go:425-443 | A successful acknowledgement lies inside what the follower shares with the leader if and only if it is not the case that the batch was already held and a differing surplus tail follows it. |
| `Witness.CommitUnsafeWithoutHypothesis` | internal/node/node.go:433-443 | A concrete run of three properly wired nodes in which two of them commit different entries at index 1, because an acknowledgement overstates. |
| `Witness.VotesTwice` | internal/node/node.go:411-415 | A concrete run of three properly wired nodes in which one votes for itself and then for another in the same term. |
| `SelfWired.SelfWiredSafeIffAlone` | internal/cluster/cluster.go:19-36 | For the cluster the constructor builds, with any initial timers: every use of the driver, and every run of its network, has at most one leader per term if and only if it has at most one node. |
| `SelfWired.SelfWiredElectionUnsafe` | internal/cluster/cluster.go:25-63 | For every size of two or more there is a use of the driver from the constructor's state, with ticks to all nodes and complete deliveries, in which two different nodes lead the same term. |
| `SelfWired.Elect` | internal/cluster/cluster.go:39-63 | In a self-wired cluster, ten rounds of ticks and one delivery elect the node whose timer is shortest as soon as half of the cluster is up and free to vote. |
| `SelfWired.Forget` | internal/node/node.go:406-418 | A self-wired leader that is alone follows its own heartbeat after two rounds of ticks and a delivery, and is free to vote in its term again. |
| `Effects.VoteLostIff` | internal/node/node.go:406-418 | Any event changes a cast vote inside its term if and only if it delivers an AppendEntries of that term to a live candidate or leader, whatever the wiring and history. |
| `Election.ReachableVoteLostIff` | internal/node/node.go:406-418 | In every run of properly wired nodes this happens exactly to a live candidate, and the term then already has another leader. |
| `Merging.MergeYieldsLeaderPrefix` | internal/node/node.go:425-433 | Merging an AppendEntries into a matching log leaves it alone or makes it a prefix of the leader's log, and it agrees with the leader through the end of the batch; what becomes of the commit index. |
| `Merging.MergeKeepsShared` | internal/log/log.go:134-162 | Merging keeps everything the follower already shared with that leader. |
| `Merging.AppendReachesLast` | internal/node/node.go:319-341 | An AppendEntries reaches the leader's last index if and only if the next index is not beyond the end; otherwise the fallback to index 0 sends nothing. |
| `Stability.LeaderStability` | internal/cluster/cluster.go:39-63 | From every reachable state with an established leader (followers in its term, at least three ticks left, no queued message of a later term), rounds of ticking and delivering with any proposals never start an election and keep leader, followers and term. |
| `Stability.TickAllPends` | internal/node/node.go:266-284 | After a round of ticks each follower's timer still outlasts the wait for a heartbeat, or a heartbeat is queued for it. |
| `Stability.DeliverAllReadies` | internal/node/node.go:406-418 | A delivery that visits every node's queue, in any order, renews every timer that had become short. |
| `Backtracking.BacktrackingConverges` | internal/node/node.go:319-461 | Wherever the next index starts, past the leader's end included: lock-step exchanges move nothing but the next index until it reaches the last index where the logs meet; then the logs are equal and stay so. The count is exact in both cases and at most the next index. |
| `Backtracking.CommitReachesFollower` | internal/node/node.go:433-442 | One exchange after convergence the follower has committed at least what the leader had committed at the start, and both commit indexes stay inside their logs. |
| `Backtracking.SyncedExchangeCommits` | internal/node/node.go:433-442 | With equal logs one exchange makes the follower's commit index the leader's, unless it was ahead. |
| `Backtracking.ExchangeFallsBack` | internal/node/node.go:328-332 | A next index past the leader's end costs one exchange, which moves no log and brings it to the follower's own end. |
| `Backtracking.ExchangeStepsBack` | internal/node/node.go:446-461 | A refused probe changes no log and lowers the next index by one. |
| `Backtracking.ExchangeCatchesUp` | internal/node/node.go:406-461 | An accepted probe makes the follower's log the leader's and the next index the leader's end. |
| `Backtracking.ReachablePair` | internal/node/node.go:319-461 | In every reachable state the premises of convergence hold for a leader and any other node that is up, in no later term and with no longer a log. |
| `Backtracking.ReachableNextKnown` | internal/node/node.go:303-317 | In every reachable state a leader's next index for each peer is at least 1. |
| `PeerTracker.ScanIsQuorumMatch` | internal/node/node.go:467-494 | The downward commit scan equals its closed form: the smaller of quorum match and last index, when that is above the commit index and of the current term; otherwise no change. |
| `PeerTracker.ReachableAckCommits` | internal/node/node.go:446-494 | In every reachable state, the leader after a successful acknowledgement is the one that has counted it, with the commit index given by the closed form over that count. |
| `PeerTracker.QuorumMatchCounts` | internal/node/peers.go:64-76 | An index of the log is at most the quorum match if and only if the counting loop finds it on a majority. |
| `PeerTracker.QuorumMatchIsUnique` | internal/node/peers.go:64-76 | At most one index is the greatest that a majority has reached. |
| `PeerTracker.Tracker.constructor` | internal/node/peers.go:18-27 | One entry per id, next index past the given last index, match index 0. |
| `PeerTracker.Tracker.UpdateMatch` | internal/node/peers.go:35-42 | The match index of a known peer is set, its next index only moves forward, nobody else changes. |
| `PeerTracker.Tracker.DecrementNext` | internal/node/peers.go:45-51 | The next index of a known peer steps back but not below 1, nobody else changes. |
| `PeerTracker.Tracker.MatchIndexes` | internal/node/peers.go:54-61 | An ascending list with one match index per peer, for any order of visiting. |
| `PeerTracker.Tracker.QuorumMatch` | internal/node/peers.go:64-76 | The result is the greatest index that a majority of peers and leader has reached. |
| `Quorum.WinIsMajority` | internal/node/node.go:238-254 | With the own id not among the peers, the vote count is the number of voters, and winning is holding a strict majority. |
| `Quorum.VoteQuorumsOverlap` | internal/node/node.go:238-254 | For every cluster size, two winning counts share a voter when no peer list contains its own node. |
| `Quorum.SelfWiredOverlapIffOdd` | internal/cluster/cluster.go:25-32 | When every node is its own peer, winning counts overlap if and only if the size is odd. |
| `Quorum.EvenHalvesWin` | internal/cluster/cluster.go:25-32 | In a self-wired cluster of any even size the two halves both win and share nobody. |
| `Quorum.CountedWithSelf` | internal/node/node.go:486-494 | What the commit rule counts is a strict majority of the cluster. |
| `Membership.NewConfig` | internal/membership/membership.go:14-19 | The given ids, each as often, in ascending order. |
| `Membership.Contains` | internal/membership/membership.go:22-29 | True exactly for members. |
| `Membership.OtherPeers` | internal/membership/membership.go:40-48 | The peers without any occurrence of the id. |
| `Membership.AddPeer` | internal/membership/membership.go:51-59 | The same configuration if the id is present, otherwise sorted and larger by exactly that id. |
| `Membership.RemovePeer` | internal/membership/membership.go:62-70 | Sorted and without any occurrence of the id, everything else as often as before. |
| `Membership.ChangeKeepsDistinct` | internal/membership/membership.go:51-70 | Both changes keep a configuration duplicate-free, and sorted if it was, and change membership by that id alone. |
| `Membership.AddThenRemove` | internal/membership/membership.go:51-70 | Removing a peer just added restores the configuration. |
| `Membership.OnePeerChangeOverlaps` | internal/membership/membership.go:35-88 | Any majority before adding or removing a peer shares a member with any majority after it, for every duplicate-free configuration and whether or not the id was present. |
| `Membership.OtherPeersWire` | internal/membership/membership.go:40-48 | Giving a member the other members as peers is the wiring the protocol theorems ask for. |
| `Membership.WinsIffMajority` | internal/membership/membership.go:35-37 | A node wired that way wins an election exactly with a majority of the configuration. |
| `Membership.ElectionsOverlapAcrossChange` | internal/membership/membership.go:51-70 | Two election wins on the two sides of a one-peer change share a voter. |
| `RaftLog.AppendHoldsBatch` | internal/log/log.go:134-162 | After an append the log has the batch's terms over its whole range, the batch's entries from the divergence on, and everything it had before the divergence. |
| `RaftLog.MergeResult` | internal/log/log.go:134-198 | The exact log and commit index after a merge, by the point of divergence. |
| `RaftLog.AppendAbsorbsResends` | internal/log/log.go:134-198 | Appending a batch again, or any prefix of it, changes nothing. |
| `RaftLog.AbsorbHeld` | internal/log/log.go:145-158 | A batch the log already holds term for term changes nothing. |
| `RaftLog.AppendKeepsAligned` | internal/log/log.go:134-171 | Appending a contiguous batch from inside the log or its end succeeds and keeps every entry at its index. |
| `RaftLog.FirstGap` | internal/log/log.go:134-141 | The reported position is the first that does not follow its predecessor. |
| `RaftLog.TruncateLaw` | internal/log/log.go:179-198 | Refused exactly for the dummy and past a gap; otherwise exactly the entries before the index stay and the commit index is lowered only as far as they require. |
| `RaftLog.CommitLaw` | internal/log/log.go:208-221 | A commit index is accepted exactly when it lies in the log and is no step back; nothing else changes. |
| `RaftLog.Log.constructor` | internal/log/log.go:48-53 | A log with the dummy entry only and nothing committed. |
| `RaftLog.Log.Last` | internal/log/log.go:59-65 | Index and term of the last entry, zeros for an empty log. |
| `RaftLog.Log.EntryAt` | internal/log/log.go:71-76 | The entry at a position, or nothing past the end. |
| `RaftLog.Log.CopyRange` | internal/log/log.go:93-109 | Exactly the real entries with an index in the half-open range. |
| `RaftLog.Log.Committed` | internal/log/log.go:224-231 | Exactly the real entries with an index up to the commit index. |
| `RaftLog.Log.AppendTail` | internal/log/log.go:165-171 | The batch behind the log, nothing else changed. |
| `RaftLog.Log.TruncateAt` | internal/log/log.go:179-198 | Refuses the dummy and gaps; otherwise cuts and clamps the commit index. |
| `RaftLog.Log.FindGap` | internal/log/log.go:134-141 | Finds the first gap of a batch if there is one. |
| `RaftLog.Log.AppendBatch` | internal/log/log.go:134-162 | The scanning loop computes the specified append on every log and batch, refused ones included. |
| `RaftLog.Log.Commit` | internal/log/log.go:208-221 | The commit index moves forward inside the log or not at all. |
| `Persistence.DecodesExactly` | internal/log/log.go:250-327 | Bytes decode to a state if and only if that state has indices 1 to n and 64-bit integers and the bytes begin with its encoding. |
| `Persistence.DeserializeAfterSerialize` | internal/log/log.go:250-327 | Decoding an encoding, with anything behind it, returns the state. |
| `Persistence.SerializeAfterDeserialize` | internal/log/log.go:272-327 | Encoding again whatever was accepted yields exactly the bytes consumed. |
| `Persistence.LayoutHeader` | internal/log/log.go:250-256 | The encoding begins with term, vote and number of entries as words, in this order. |
| `Persistence.LayoutEntry` | internal/log/log.go:257-266 | At its offset each entry is its term, index and command length as words and then its command. |
| `Persistence.U64Bytes` | internal/log/log.go:250-267 | Words are little-endian: byte i has weight 256 to the i. |
| `Persistence.SerializeState` | internal/log/log.go:250-267 | The buffer-building loop computes the encoding, which decodes back. |
| `Persistence.ReadU64` | internal/log/log.go:277-285 | Reads eight bytes and moves on, or reports that they are missing. |
| `Persistence.DeserializeState` | internal/log/log.go:272-327 | The parsing loop computes the decoder, every error included, and what it accepts re-encodes to its input. |
| `NodeModel.RestartPreserves` | internal/node/node.go:545-575 | Restarting a crashed node with an aligned log succeeds and changes nothing but commit index, role, timers and volatile maps. |
| `NodeModel.RebuildIsIdentity` | internal/node/node.go:555-562 | Appending a log's own entries to an empty log rebuilds it. |
| `Effects.Classify` | internal/node/node.go:266-575 | Every event does one of eleven things to a node, each described without the handlers' code. |
| `Effects.ReactAddresses` | internal/node/node.go:286-461 | Whatever a node sends bears its id and goes to a peer or back to whom it answers. |
| `Effects.ReactKeepsAligned` | internal/node/node.go:266-575 | An aligned node stays aligned and sends gap-free batches, whatever the wiring. |
| `NodeLaws.GrantIff` | internal/node/node.go:371-388 | A vote is granted if and only if it is free in the request's term and the candidate's last entry is of a later term, or of the same term at no smaller index; the one reply says so in that term, a refusal casts no vote, and every other field is accounted for. |
| `NodeLaws.StaleRequestRefused` | internal/node/node.go:371-374 | A request of an earlier term is refused in the node's own term and changes nothing. |
| `NodeLaws.LaterTermStepsDown` | internal/node/node.go:354-506 | Any of the four kinds of message that bears a later term makes a live node a follower of exactly that term, its vote free unless it just granted it, its log changed by an AppendEntries only; a reply of a later term is not answered. |
| `NodeLaws.StaleReplyIgnored` | internal/node/node.go:390-461 | A reply of an earlier term, or to a role the node no longer has, changes nothing. |
| `NodeLaws.LeadsIffMajority` | internal/node/node.go:390-404 | A candidate that hears a reply of its term leads if and only if a strict majority of the cluster has granted, with fresh indexes and one empty AppendEntries after its last entry per peer; otherwise only the count changes. |
| `NodeLaws.EntriesAcceptedIff` | internal/node/node.go:406-444 | Entries of no earlier term are accepted if and only if the previous entry is held; then the merged log, the larger of its commit index and the leader's capped by the last index, and an acknowledgement of the last index; otherwise a refusal and the same log. |
| `NodeLaws.CommitFollows` | internal/node/node.go:433-442 | A follower's commit index becomes the larger of its own and the leader's, the latter capped by the last index. |
| `NodeLaws.StaleEntriesRefused` | internal/node/node.go:406-409 | Entries of an earlier term are refused in the node's own term and change nothing. |
| `NodeLaws.GapRefused` | internal/node/node.go:425-431 | A batch with a gap is refused with the log unchanged, the leader heard. |
| `NodeLaws.RefusalStepsBack` | internal/node/node.go:446-461 | A refusal takes the leader's next index for that peer one back, not below 1, and changes nothing else. |
| `NodeLaws.AckIsCounted` | internal/node/node.go:446-494 | An acknowledgement sets match and next index of that peer, and beyond that at most raises the commit index, to an entry of the current term that a majority has. |
| `NodeLaws.CampaignsIff` | internal/node/node.go:266-301 | A tick starts an election, next term, own vote, one request per peer naming the last entry, if and only if the node is up, does not lead and has reached its timeout, candidates included. |
| `NodeLaws.CampaignsOnTime` | internal/node/node.go:266-301 | A live node that does not lead and hears nothing is silent for exactly as many ticks as its timer has left and campaigns on the last of them. |
| `NodeLaws.BeatsIff` | internal/node/node.go:276-283 | A leader's tick sends to every peer if and only if the heartbeat is due, and changes only its two clocks. |
| `NodeLaws.ProposalLaw` | internal/node/node.go:510-524 | Refused exactly on a node that is down or does not lead; otherwise the log grows by exactly one entry of the current term. |
| `NodeLaws.ReplicationLaw` | internal/node/node.go:346-351 | A live leader sends to each peer in order, nobody else sends anything. |
| `NodeLaws.CrashLaw` | internal/node/node.go:528-540 | Term, vote and log survive a crash, volatile state does not, and a second crash changes nothing. |
| `NodeLaws.DownIsSilent` | internal/node/node.go:266-369 | A node that is down answers nothing, sends nothing and changes by no message, tick or proposal. |
| `Availability.MajorityElects` | internal/node/node.go:286-404 | From any state, a live node that does not lead, with voters that make a majority with it, are up, in no later term and hold no more recent logs, is elected by some run in its next term, its log untouched. |
| `Availability.EqualLogsElect` | internal/node/node.go:286-404 | In particular a live majority with equal logs, of whatever content, can elect any of its members. |
| `Availability.MajorityCommits` | internal/node/node.go:286-524 | From any state, a live majority with equal logs can elect any of its members and commit any command right behind what they hold. |
| `PeerNode.Node.constructor` | internal/node/node.go:168-186 | A follower of term 0 with an empty log and a drawn timeout. |
| `PeerNode.Node.ResetTimer` | internal/node/node.go:229-236 | Elapsed time returns to 0 and the timeout is drawn anew. |
| `PeerNode.Node.Majority` | internal/node/node.go:238-241 | The least number that is more than half of the peers and the node. |
| `PeerNode.Node.CountVotes` | internal/node/node.go:243-254 | Own grant plus one per granting position of the peer list. |
| `PeerNode.Node.IsUpToDate` | internal/node/node.go:256-262 | A later last term wins; equal terms compare by index. |
| `PeerNode.Node.Tick` | internal/node/node.go:266-284 | The tick whose meaning `NodeLaws.CampaignsIff` and `NodeLaws.BeatsIff` state. |
| `PeerNode.Node.StartElection` | internal/node/node.go:286-301 | A candidate of the next term with its own vote and one request per peer. |
| `PeerNode.Node.BecomeLeader` | internal/node/node.go:303-317 | A leader with fresh indexes and one AppendEntries per peer. |
| `PeerNode.Node.Broadcast` | internal/node/node.go:319-341 | The specified AppendEntries for each peer in order, fallback included. |
| `PeerNode.Node.ReplicateNow` | internal/node/node.go:346-351 | The broadcast of a live leader, nothing from anybody else. |
| `PeerNode.Node.Step` | internal/node/node.go:354-369 | The specified reaction to any message in any state; gap-free messages keep the log aligned. |
| `PeerNode.Node.HandleRequestVote` | internal/node/node.go:371-388 | The handler whose meaning `NodeLaws.GrantIff` and `NodeLaws.StaleRequestRefused` state. |
| `PeerNode.Node.HandleRequestVoteResp` | internal/node/node.go:390-404 | The handler whose meaning `NodeLaws.LeadsIffMajority` and `NodeLaws.LaterTermStepsDown` state. |
| `PeerNode.Node.HandleAppendEntries` | internal/node/node.go:406-444 | The handler whose meaning `NodeLaws.EntriesAcceptedIff`, `NodeLaws.StaleEntriesRefused` and `NodeLaws.GapRefused` state. |
| `PeerNode.Node.HandleAppendEntriesResp` | internal/node/node.go:446-461 | The handler whose meaning `NodeLaws.AckIsCounted`, `NodeLaws.RefusalStepsBack` and `NodeLaws.LaterTermStepsDown` state. |
| `PeerNode.Node.ScanAndCommit` | internal/node/node.go:467-484 | The loop computes the specified scan. |
| `PeerNode.Node.IsReplicated` | internal/node/node.go:486-494 | True exactly when node and peers at that index make a majority. |
| `PeerNode.Node.StepDown` | internal/node/node.go:496-506 | A follower of the given term without vote or volatile state. |
| `PeerNode.Node.Propose` | internal/node/node.go:510-524 | Refuses on a crashed node or a non-leader; otherwise appends one entry of the current term. |
| `PeerNode.Node.Crash` | internal/node/node.go:528-540 | Volatile state is lost, term, vote and log stay. |
| `PeerNode.Node.Restart` | internal/node/node.go:545-575 | The reboot through bytes computes the specified restart, and never fails on an aligned node with 64-bit integers. |
| `Compaction.CompactionAgrees` | internal/log/compact.go:50-62 | After any list of compaction requests, reading from an index yields the uncompacted log's entries from the later of that index and the first past the base. |
| `Compaction.CompactAllCuts` | internal/log/compact.go:6-31 | The log is the full one cut at the furthest request that lies within commit index and log. |
| `Compaction.CompactMovesBase` | internal/log/compact.go:6-31 | A request is refused unless it is 0 or lies past the base, inside log and commit index. |
| `Compaction.UncommittedSurvive` | internal/log/compact.go:6-31 | No compaction discards an uncommitted entry. |
| `Compaction.CompactTo` | internal/log/compact.go:6-31 | The method computes the specified compaction, both errors and the no-op included. |
| `Compaction.ReadSince` | internal/log/compact.go:50-62 | The copied entries from an absolute index. |
| `Compaction.CompactionPoint` | internal/log/compact.go:34-47 | Index and term of the base. |
| `Compaction.LogIterator.Seek` | internal/log/iter.go:46-52 | On a compacted log the iterator lands on the entry with that index of the full log. |
| `Compaction.LogIterator.VisitFrom` | internal/log/iter.go:15-52 | Seeking and then iterating while valid visits exactly what a read from that index returns. |
| `Compaction.LogIterator.Current` | internal/log/iter.go:25-30 | On a compacted log, the entry of the uncompacted log as far past the base as the position, or the zero entry past the end. |
| `Compaction.LogIterator.Index` | internal/log/iter.go:33-38 | The index of the current entry, 0 past the end. |
| `Compaction.LogIterator.Count` | internal/log/iter.go:55-61 | The number of entries left after compaction. |
| `Simulator.DriveRefines` | internal/cluster/cluster.go:39-131 | Any use of a plain or partitioned cluster, with any wiring, visiting order and draws, is a run of the lossy network that ends in the driver's very nodes. |
| `Simulator.DeliverAllRefines` | internal/cluster/partition.go:57-82 | Each delivery, filtered or not, is such a run. |
| `Simulator.TickAllRefines` | internal/cluster/cluster.go:39-44 | Each round of ticks is such a run. |
| `Simulator.ProposeRefines` | internal/cluster/cluster.go:76-89 | Each proposal is such a run. |
| `Simulator.DeliveryConserves` | internal/cluster/cluster.go:47-63 | With no self-addressed messages a delivery steps each member's queued messages, then those sent to it, in order and once each, or leaves them queued; strangers' messages are never stepped. |
| `Simulator.FilteredDeliveryConserves` | internal/cluster/partition.go:57-82 | The same through a partition: nothing is lost but messages on blocked links. |
| `Simulator.DrivenDeliveryConserves` | internal/cluster/partition.go:57-82 | Conservation at any point of any use of a properly wired cluster. |
| `Simulator.RouteAppends` | internal/cluster/cluster.go:127-131 | Routing appends to each queue exactly what is bound for it, in order. |
| `DriverSafety.DrivenElectionSafety` | internal/cluster/cluster.go:39-89 | However a properly wired simulated cluster is driven, partitions, crashes and restarts included, no term ever has two leaders. |
| `DriverSafety.DrivenLogMatching` | internal/cluster/cluster.go:39-89 | However it is driven, two logs with the same term at an index are identical through it. |
| `DriverSafety.DrivenStateMachineSafety` | internal/cluster/cluster.go:39-89 | However it is driven, under the acknowledgement hypothesis of its events, committed entries of any two nodes agree wherever both commit indexes reach. |
| `DriverSafety.DrivenLeaderCompleteness` | internal/cluster/cluster.go:39-89 | However it is driven, under the same hypothesis, what a node has committed stands in the log of every leader of a later term. |
| `LoneNode.LoneNodeNeverLeads` | internal/node/node.go:390-404 | A cluster of one never elects its node, however it is wired and driven: votes are counted on a reply, and the only possible one, to itself, is cleared with its own queue. |
| `ClusterDriver.Cluster.constructor` | internal/cluster/cluster.go:19-36 | Fresh nodes with ids from 1, each its own peer, standing for an initial network. |
| `ClusterDriver.Cluster.TickAll` | internal/cluster/cluster.go:39-44 | The loop computes the round of ticks whose meaning `DriverLaws.EachTicksOnce` states. |
| `ClusterDriver.Cluster.DeliverAll` | internal/cluster/cluster.go:47-63 | The nested loops compute the specified delivery in any visiting order. |
| `ClusterDriver.Cluster.Leader` | internal/cluster/cluster.go:66-73 | The id of a leading node, or 0 if and only if nobody leads. |
| `ClusterDriver.Cluster.Propose` | internal/cluster/cluster.go:76-89 | The proposal whose meaning `DriverLaws.ProposalReplicates` and `DriverLaws.ProposalRefused` state. |
| `DriverLaws.ProposalAcceptedIff` | internal/cluster/cluster.go:66-89 | A proposal is accepted if and only if some member leads and the first that does is up. |
| `DriverLaws.ProposalRefused` | internal/cluster/cluster.go:76-83 | A refused proposal changes nothing; the error says whether nobody leads or the first leader is down. |
| `DriverLaws.ProposalReplicates` | internal/cluster/cluster.go:76-89 | An accepted proposal appends exactly one entry to that leader's log, moves no other node, and queues for each position of its peer list a message whose batch ends with the entry, unless the next index is past it. |
| `DriverLaws.ProposalReachesPeers` | internal/cluster/cluster.go:76-89 | With a duplicate-free peer list each peer's queue gains exactly one such message and no other queue moves. |
| `DriverLaws.EachTicksOnce` | internal/cluster/cluster.go:39-44 | A round of ticks ticks each node exactly once from the state it was in, and every queue grows by what was sent to it, in order. |
| `ClusterDriver.Cluster.RouteAll` | internal/cluster/cluster.go:127-131 | The loop computes the specified routing. |
| `ClusterDriver.Cluster.NodeIndex` | internal/cluster/cluster.go:133-140 | The node with that id if there is one. |
| `Partitions.BlockedIffLastWasPartition` | internal/cluster/partition.go:20-54 | After any history, a link between members is blocked if and only if they are distinct and the last change touching either was a partition. |
| `Partitions.BlockingIsSymmetric` | internal/cluster/partition.go:20-54 | After any history, blocking is symmetric and never concerns a node and itself. |
| `Partitions.PartitionedCluster.Partition` | internal/cluster/partition.go:20-33 | Blocks exactly the links between the node and other members, both ways, and keeps the table equal to its history. |
| `Partitions.PartitionedCluster.Heal` | internal/cluster/partition.go:36-41 | Unblocks exactly the links of the node. |
| `Partitions.PartitionedCluster.HealAll` | internal/cluster/partition.go:44-46 | Unblocks everything. |
| `Partitions.PartitionedCluster.IsBlocked` | internal/cluster/partition.go:49-54 | True exactly for blocked links. |
| `Partitions.PartitionedCluster.DeliverAllFiltered` | internal/cluster/partition.go:57-82 | The nested loops compute the specified delivery over the links its history blocks. |

## Left out

- Unconditional commit safety: it is false of the program; see `CommitUnsafeWithoutHypothesis`. It is proved under `AcksInside`, whose exact meaning before each call is `AcksInsideIff`; that every run outside the hypothesis goes on to violate safety is not claimed, since an overstated acknowledgement may never be counted.
- 64-bit wrap-around of terms, indices and ids; a restart in a run is limited to states whose integers fit the persisted words.
- `math/rand` internals, event strings, error texts and the command-line program.
- `internal/persist`, `internal/snapshot` and `internal/codec`: file handling and further encodings, easier than the two-sided persistence law.
- `internal/transport`: a guarded mailbox, subsumed by the network's message pool.
- `internal/statemachine`: string and JSON handling that nothing drives from the committed log.
- `internal/config`, `internal/log/stats.go`, `internal/log/batch.go`, `internal/node/timer.go`, `internal/node/message.go`: validation, counters and thin helpers.
- The library sort is the function `Sorting.Sort` on values; that it permutes in place is not captured.
- `PeerTracker.Get` hands out a reference into the tracker and `Cluster.Node` one into the cluster; writes through such references are not modelled, except crashes and restarts in `Simulator.Drive`.
- Copies of command bytes and entry slices: sequences are values here, so aliasing cannot arise.
- Mixing compaction with the reads and writes that take absolute positions; no caller does it.
- `membership.Config.Equal` and `Size`, `PeerTracker.IDs` and `Len`, and the accessors of nodes and clusters.
