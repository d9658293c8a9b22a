# rs-raft, modelled and proved in Dafny

This project models the core of rs-raft, a Rust port of the Raft consensus core, and proves what the
library is for: the five safety properties listed in the repository's README.md (lines 35-70), over
every run of a cluster, together with the correctness of the log, the replication bookkeeping and the
read-index queue those runs rest on.

## How the model is built

* **One node as a value** (`node.dfy`). `NodeSpec` says, transition by transition, what `src/raft.rs`
  makes of a node and which messages it sends. A panic of the source is an outcome of its own
  (`Panic`), so that "it cannot happen" is something proved and not assumed.
* **The cluster** (`cluster.dfy`). A state is one node per voter and the set of everything ever sent.
  Messages are never removed, so a run may lose, repeat and reorder them. Steps: delivery of any
  message through `step` (elections, pre-votes, appends, heartbeats, acknowledgements), a timeout,
  a proposal, `send_append`, a heartbeat, changes of a peer's flow control, applying entries, and a
  crash followed by a restart from a hard state of the same term and vote with a possibly older commit
  mark.
* **The safety proof** (`history.dfy` to `cluster_safety.dfy`). A proof-only history remembers who won
  each term with which quorum, the longest log of every leader, the log behind every vote and every
  candidacy, and how far each node acknowledged each leader. Every step keeps the nodes and messages
  consistent with a growing history. The theorems (`theorems.dfy`) do not mention it: they are about
  the nodes of any two moments of any run. `example_run.dfy` exhibits a run in which a leader is
  elected and commits, so the theorems are about something.
* **The objects** (`storage.dfy`, `unstable.dfy`, `raft_log.dfy`, `inflights.dfy`, `progress.dfy`,
  `progress_set.dfy`, `read_only.dfy`, `raft.dfy`). What the source updates in place is a class here.
  `RaftLog` over `Unstable` over `MemStorage` is proved to stand for one simple log
  (`abstract_log.dfy`), and its methods to be the operations of `tiers.dfy`, where runs of them are
  studied; `Raft` is proved to take exactly the steps of `NodeSpec`, message for message, so the
  theorems about runs are about that object.
* **What the runs do** (`proposals.dfy`, `sent_messages.dfy`, `deliveries.dfy`, `responses.dfy`,
  `heartbeats.dfy`, `leading.dfy`). Every entry goes back to a proposal or opens a leader's term; every
  message was true of its sender when it was sent; what a delivered message does is said in terms of
  fields, entries and answers, not of the functions that compute it; and a leader has always committed
  all it may.
* **What the runs can do** (`elections.dfy`, `replication_runs.dfy`, `commit_runs.dfy`, `service.dfy`). From
  every reachable state a majority can elect one of its most up-to-date members and commit whatever it is
  asked to append, by messages among themselves alone.
* **Properties across operations** (`log_properties.dfy`, `tiers.dfy`, `replication.dfy`,
  `replicating.dfy`), further ones of runs (`run_properties.dfy`, `window_room.dfy`), the runs the text
  alone allows (`as_written.dfy`, `dropped_requests.dfy`) and one that stalls (`stall_run.dfy`).

Indices and terms are unbounded naturals. Real entries have a term and an index of at least 1, which
holds of every entry of every run and is not assumed there.

## Where text and intent of the source differ

The source is unfinished in places. Where that is so, the model follows the evident intent, and a lemma
says what the text does instead, or the runs allow both.

* `src/raft.rs:721` returns outside the lease test, so every vote request of a higher term is dropped;
  `src/progress.rs:235-239` swaps two outcomes of `candidacy_status`; `src/raft.rs:991` passes the
  message's own term where the previous entry's term is meant (`log_term`, filled in at line 407).
  `Choice` leaves all three open at every delivery: the safety theorems cover the text and the intent.
  What the first one does to runs is the subject of `dropped_requests.dfy`, what the third does that of
  `as_written.dfy`. The swap of the second is visible unless the candidate is elected
  (`SwapVisibleUnlessElected`).
* `src/storage.rs:144-147` builds the overwritten vector and drops it: `AppendAsWrittenExact` says
  exactly when nothing is lost, `AppendAsWrittenLoses` shows a loss.
* `src/log_unstable.rs:84` sets the offset to the snapshot's index, one too low: `RestoreAsWritten`.
* `src/progress.rs:327` overwrites the next index where the pending snapshot is meant:
  `SnapshotAbortAsWritten`.
* Followed as meant without a lemma: `src/raft.rs:328` (the zero test is inverted: a message other than
  a vote must not carry a term yet), `src/raft.rs:210` (peers are voters), `src/raft.rs:489`
  (`leader_id`), `src/progress.rs:282` (`Progress::new` keeps its `next_idx`), and
  `src/log_unstable.rs:85` (`Some`).
* `step_leader` and `step_follower` are stubs: the public handlers are called directly, and an
  acknowledgement is treated by the rule of the repository's README.md, lines 299-304.

Six things one might expect turn out false; each has a concrete input or run, and an exact condition.

* A late `stable_to` is not always harmless, even when Log Matching holds between the log and everything
  that was ever flushed: the acknowledgement of a superseded flush can uncover a stale stored entry and
  make `last_index` grow (`SupersededAckUncovers`, reached by a run of flushes and appends). An
  acknowledgement leaves the two tiers fitting together and the same log exactly when it is `Durable`
  (`StableToExact`), which the acknowledgement of the latest flush always is, whatever appends, merges,
  commits and compactions came since (`LatestAckHarmless`).
* The probing loop can stall, and does in a run (`ProbeStalls`): a leader with entries of terms 1, 1 and 2
  is rejected, gets two entries across, hears the same rejection again, and sends the first entry once
  more. The acknowledgement brings nothing new, the peer stays paused, and no exchange follows although an entry
  is missing. Exactly the exchanges that are rejected, acknowledge more than is matched, or send nothing
  leave the peer ready (`PausesExactly`); while the next index is above what is matched all do
  (`AheadBringsNews`). With a resume before each exchange the loop converges from every record
  (`Converges`), and from every reachable state the run can go on to complete it (`ReachableCatchesUp`).
* `maybe_decr_to` does not keep the in-flight window in order. Probing, a repeated rejection takes the
  next index below what is matched (`StaleRejectionFallsBack`); replicating, already the first rejection
  of a batch in flight leaves the window as it is behind the new next index, and the next send repeats a
  value: 5, 6, 7, 5 (`ReplicatingRejectionDisorders`). The order is kept exactly on the rejections
  `Harmless` describes (`RejectionExact`), and restored by `become_probe` or `become_replicate`
  (`BecomingRestoresFlow`). Capacity, matched index and the absence of panics need no condition
  (`BoundedOverRuns`).
* `Inflights::free_first_one` can read past the end of the buffer: on a fresh window, and on one whose
  only value was freed (`CannotFreeFirst`). Over any run it does so exactly on an empty window, if fewer
  values than fit were added since the last reset and no earlier stretch between resets added more
  (`FirstReadableOverRuns`).
* As written, the append handler never replicates anything: in a run handled that way every entry of a
  log is one its own node appended as a leader (`NothingReplicates`), and with two voters or more nothing
  is ever committed (`NothingCommits`). The first append of the first leader is refused
  (`FirstAppendRefused`). In any run a follower in the leader's term accepts as written exactly if it has
  committed past the previous index or holds the leader's own-term entry there
  (`AcceptAsWrittenExact`).
* As written, with every vote request of a higher term dropped, elections happen at the wrong places
  only. Among two voters or more a leader can be elected if and only if some node does not pre-vote and
  the pre-voting nodes make a majority together with it (`NobodyLeads`, `SomebodyLeads`): its refusal of
  their pre-votes takes them to its term without a vote, where its request is not dropped. With pre-votes
  everywhere, or nowhere, nobody is ever elected.

## Model

| member | source | states |
|---|---|---|
| Theorems.ElectionSafety | README.md:37-42 | Over a whole run, crashes and pre-votes included, a term has at most one leader. |
| Theorems.LeaderAppendOnly | README.md:44-49 | Between two moments at which a node leads one term its log was only extended. |
| Theorems.LogMatching | README.md:51-56 | Two logs of any nodes at any moments with an entry of one term at one index are equal up to it. |
| Theorems.LeaderCompleteness | README.md:58-63 | Whatever any node has committed in a term is in the log of every leader of every later term, at every moment of its leadership. |
| Theorems.StateMachineSafety | README.md:65-70 | No two nodes at any two moments hold different entries at an index both have committed, and nothing is applied that is not committed. |
| Theorems.NoPanic | src/raft.rs:584-1024 | Nothing enabled in any state of any run ends in a panic of the source, the assertions on role changes included. |
| Service.ReachableServes | README.md:35-70 | From every reachable state in which no member of some majority is ahead of node `i` in term or log, and for any entries: the run can go on, by messages among that majority alone, to a state in which each of them has committed the log `i` had, the entry that opens its term, and the given entries with their types and payloads. |
| Elections.ReachableElects | src/raft.rs:637-690 | In every such state that node can be elected to the next term by them alone, with pre-votes if it uses them; its log is the old one and one empty entry, every other voter is sent an append, and no other node moves. |
| Elections.UpToDateExact | src/raft_log.rs:248-250 | The comparison of last term and last index accepts exactly the logs that are at least as up to date, compared on the entries. |
| CommitRuns.ReachableCommits | src/raft.rs:398-482 | From every reachable state a leader and peers of no higher term that make a majority with it can, by messages among themselves alone, reach a state in which all of them hold and have committed the leader's whole log. |
| Leading.NothingLeftToCommit | src/raft.rs:479-482 | At every moment of every run a leader has committed each index that a majority has matched with an entry of its term; it voted for and follows itself, counts its whole log as matched, and its log ends in its term. |
| Proposals.ProposalAppended | src/raft.rs:511-523 | In every run a proposal is appended right behind the leader's log: one entry of its term for each, in order, with the given type and payload; nothing is sent. |
| Proposals.EntriesOriginate | src/raft.rs:511-523 | Every entry any node ever holds was newly appended, at that place, by a leader of its term: as the empty entry that opened the term, or with type and payload of an entry it was asked to append. |
| SentMessages.EverySent | src/raft.rs:398-454 | Over every run each message was true of its sender when it was sent: an append carries the leader's commit mark and as many entries as fit from the place it names; a vote or pre-vote request names the end of the candidate's log and the term it asks for; a heartbeat commits what the peer has matched of the leader's commit mark; nobody sends to itself. |
| Deliveries.HeartbeatDelivered | src/raft.rs:1017-1024 | In every run a heartbeat that is not of an earlier term moves the receiver's commit mark up to the one it names, never back, changes nothing else of the log, makes it follow the sender, and is answered with its context. |
| Heartbeats.ResponseAsked | src/raft.rs:444-454 | Over every run, whoever is sent a heartbeat response was asked before, as leader of the response's term, for a heartbeat to its sender with its context. |
| Heartbeats.ReachableConfirms | src/raft.rs:1017-1024 | From every reachable state a leader's heartbeat of any context can bring it back from any node not ahead in term, which alone moves: it follows, keeps its log, and has committed what the leader has committed and knows it to hold. |
| Deliveries.AppendDelivered | src/raft.rs:976-1015 | In every run an append that is not of an earlier term is answered with the commit mark if that is beyond it; taken in, entries and commit mark, where the log holds the place it starts from; or else refused with the end of the log. |
| Deliveries.MarkDelivered | src/raft_log.rs:127-151 | A follower that takes in a batch reaching what the leader had committed when it sent it has committed that much. |
| Deliveries.VoteDelivered | src/raft.rs:823-852 | In every run a vote or pre-vote request that is not of an earlier term is granted exactly by a node that is free to vote for the sender and whose log is not ahead of the one the sender had when it asked; a pre-vote changes nothing. |
| Deliveries.OutdatedDelivered | src/raft.rs:747-784 | A message of an earlier term changes nothing; a leader, under leases or pre-votes, and whoever asks for a pre-vote are told the present term. |
| Deliveries.TimeoutCampaigns | src/raft.rs:791-821 | In every run a timeout leaves a leader alone, and a node that has a committed configuration change to apply; any other starts over with its own vote only and asks every other voter, naming the end of its log. |
| Deliveries.AnswersStand | src/raft.rs:688-690 | While a node is a candidate of one term it forgets no answer and changes none; no node's term ever falls. |
| Responses.AnswerDelivered | src/raft.rs:920-958 | In every run a candidate heeds a voter's first answer only: with a majority in favour it leads, opens the term and tells everyone, or, after pre-votes, enters the next term and asks everyone; short of one it waits on or gives up. |
| Responses.NewsDelivered | src/raft.rs:735-746 | In every run an answer of a later term, unless it grants a pre-vote, makes the node a follower of no one in that term, free to vote; its log stays. |
| Deliveries.KnownLeaderLed | src/raft.rs:739-746 | Whom a node takes for its leader did lead the node's term, then or before. |
| WindowRoom.CapacityStays | src/progress.rs:298-307 | No step of any run changes the capacity of a peer's window, so the assertion that it is not 0 holds throughout if it holds at the start. |
| Theorems.VoteOnce | src/raft.rs:823-852 | All grants a node ever sends for one term, restarts included, name one candidate. |
| Quorum.QuorumsMeet | src/progress.rs:10-12 | Any two majorities of the same voters share a voter. |
| HistoryLemmas.UpToDateHolds | src/raft_log.rs:248-250 | The election restriction: a log at least as up to date as one that holds a chosen prefix holds it too. |
| HistoryLemmas.ChosenStays | src/raft_log.rs:309-316 | What a majority acknowledged with an entry of the leader's own term is in the log of every later leader. |
| HistoryLemmas.ChosenAgree | src/raft_log.rs:309-316 | Two chosen prefixes of any two terms agree. |
| HistoryLemmas.LogsMatch | src/raft_log.rs:105-151 | Logs copied from leaders that agree on a term at an index are equal up to it. |
| HistorySteps.TermIsFree | src/raft.rs:637-690 | A candidate with a majority of votes is the first winner of its term. |
| HistorySteps.WinTerm | src/raft.rs:611-629 | Recording a won election keeps everything known about earlier votes, terms and acknowledgements. |
| NodeSteps.Grant | src/raft.rs:823-852 | A granted vote keeps the node consistent: one vote for the term, for an up-to-date candidate. |
| NodeSteps.Stand | src/raft.rs:584-596 | Entering a new term as candidate keeps the node consistent with all it acknowledged before. |
| NodeSteps.Extend | src/raft.rs:511-523 | A leader's appended entries keep the node consistent and its term's log growing. |
| NodeSteps.Crown | src/raft.rs:611-629 | An elected candidate becomes the leader of its term with the log it campaigned with. |
| NodeSteps.CommitLeader | src/raft.rs:479-482 | The commit test of a leader only commits what a majority acknowledged in its own term. |
| NodeSteps.Follow | src/raft.rs:976-1015 | Accepting an append keeps what the node acknowledged and committed. |
| StepSafety.MergePlan | src/raft_log.rs:127-151 | Entries of a leader never conflict at or below what is committed, and the merged log is the leader's up to the last new entry. |
| StepSafety.HandleAppendSafe | src/raft.rs:976-1015 | The append handler neither panics nor breaks consistency, whichever of the two terms it compares. |
| StepSafety.HandleVoteRequestSafe | src/raft.rs:823-852 | The vote step keeps every vote single and every grant backed by a recorded vote. |
| StepSafety.SendToOk | src/raft.rs:398-442 | A leader's append is a piece of its own log with the right previous entry, sending never panics, and the peer's record stays in bounds. |
| StepSafety.HandleHeartbeatSafe | src/raft.rs:1017-1024 | A heartbeat never commits beyond what the node acknowledged to that leader, so it cannot panic. |
| StepSafety.HandleAppendResponseSafe | README.md:299-304 | An acknowledgement keeps the leader's records honest and commits only what is chosen. |
| StepSafety.CampaignElectionSafe | src/raft.rs:637-686 | A campaign, including the one that is won at once, keeps the node consistent. |
| ClusterSafety.StepSafe | src/raft.rs:692-862 | Every message a consistent node may receive is handled without panic and keeps node and messages consistent with a grown history. |
| ClusterSafety.RestartSafe | src/raft.rs:1164-1178 | A restart from a hard state of the same term and vote keeps all a node promised. |
| ClusterSafety.NextSafe | src/raft.rs:692-862 | Every step of the cluster keeps the invariant. |
| ClusterSafety.RunExplained | src/raft.rs:692-862 | Every state of every run is explained by a history, each growing out of the one before. |
| ExampleRun.CommitHappens | src/raft.rs:637-862 | Two fresh nodes reach, in five steps, a leader that has committed an entry both hold. |
| RunProperties.CommitRuleExact | src/raft.rs:479-482 | Looking at the maximal index only, `maybe_commit` commits every index a majority reached with an entry of the current term, and only such an index. |
| RunProperties.CommitRuleInRuns | README.md:303-304 | What the commit rule rests on (ordered terms, peers matched within the log) holds of every leader of every run. |
| RunProperties.ReachablePaired | src/raft.rs:426-442 | In every reachable state a leader's record of a peer not ahead in term is honest and Log Matching holds between the two logs, whatever the state of the record, so probing and replicating both converge from there. |
| RunProperties.ReachableLinked | src/raft.rs:426-442 | In every reachable state a probing leader and a peer of no higher term satisfy what the rounds need, paused or not and wherever the next index stands: Log Matching, agreement on commits, a record that claims only what is held, a peer that does not lead the term itself. |
| ReplicationRuns.ReachableCatchesUp | src/raft.rs:398-442 | From every reachable state the run can go on, by steps of a probing leader and a peer of no higher term alone (resume, send, deliver, deliver), to a state in which the peer's log begins with the leader's unchanged log and the leader's record says so, in at most four steps for each index of the gap. |
| ReplicationRuns.ExchangeTrace | src/raft.rs:692-862 | An exchange is three steps of the cluster: the leader sends, the request is delivered, the answer is delivered. |
| RunProperties.MatchAsWrittenExact | src/raft.rs:989-994 | In every run the comparison as written succeeds exactly when the one meant does and the previous entry is of the leader's own term. |
| RunProperties.AcceptAsWrittenExact | src/raft.rs:976-1015 | A follower in the leader's term accepts an append as written exactly if it has committed past the previous index, or holds the leader's own-term entry there. |
| AsWritten.FirstAppendRefused | src/raft.rs:989-994 | A run reaches an append that the follower it is sent to accepts as meant, and refuses as written. |
| AsWritten.NothingReplicates | src/raft.rs:989-994 | Over a run handled as written every entry of every log was held, at its place, by that very node while it led the entry's term. |
| AsWritten.NothingCommits | src/raft.rs:989-994 | Over such a run with two voters or more the commit mark of every node is 0 for ever. |
| DroppedRequests.NobodyLeads | src/raft.rs:698-722 | In a run in which every vote request of a higher term is dropped, and with two voters or more, no node ever leads unless some node does not pre-vote and those that do make a majority with it; every log stays empty, and a node that does not pre-vote has no vote but its own. |
| DroppedRequests.NothingGranted | src/raft.rs:823-852 | In such a run a node that does not pre-vote refuses every vote request it handles. |
| DroppedRequests.SomebodyLeads | src/raft.rs:698-722 | In every other cluster, whatever its start, some run with all those requests dropped elects a leader. |
| RunProperties.RestartRestores | src/raft.rs:278-285 | A restart from a node's own hard state gives back term, vote, log and commit mark, as a follower. |
| Replication.ExchangeProgress | src/progress.rs:356-376 | Every exchange with an unpaused peer, through `step` on both sides, is possible, leaves the leader's log alone, keeps the two logs linked and closes the gap; a peer of a lower term enters the leader's. |
| Replication.PausesExactly | src/progress.rs:338-350 | An exchange leaves the peer unpaused exactly if it will be rejected, acknowledge more than is matched, or send nothing. |
| Replication.AheadBringsNews | src/progress.rs:338-350 | While the next index is above what is matched, every exchange does one of these. |
| Replication.StallsWithoutNews | src/progress.rs:338-350 | An exchange that brings nothing new is the last one for good, unless the leader resumes. |
| StallRun.ProbeStalls | src/progress.rs:356-376 | A run of two nodes that ends in a stall: a rejection delivered twice, one more exchange, and then none ever, with an entry missing. |
| Replication.NeverRejectsHeld | src/raft_log.rs:127-151 | A rejection never concerns an index known to be held; index 0 always matches. |
| Replication.Converges | src/raft.rs:986-1013 | From every honest record, after as many rounds of resume and exchange as the gap counts, or more, the follower holds the whole leader log and the leader knows it. |
| Replication.UnaidedAreRounds | src/progress.rs:386-392 | From a record whose next index is above what is matched no resume is needed. |
| Replication.ConvergesFromScratch | README.md:299-302 | A fresh probe needs no resume and at most two exchanges for each entry, and the follower's first entries are then the leader's log. |
| Replicating.StreamingConverges | src/progress.rs:320-376 | Replication without waiting converges too, from every honest record and whatever was lost of the batches in flight: each exchange for which the window has room leaves less to do, and in the end the follower holds the whole leader log and the leader knows it. |
| Replicating.LossCostsOne | src/progress.rs:356-376 | A lost batch costs one exchange: the next append is refused, the one after that is not. |
| Replicating.TurnPossible | src/progress.rs:439-461 | Whatever is in the window, freeing it makes room for another exchange. |
| AbstractLog.FindConflictIsFirst | src/raft_log.rs:105-121 | The conflict is the first entry the log does not hold; 0 means all are held. |
| AbstractLog.AppendAccepted | src/raft_log.rs:127-151 | An append whose new end lies in the merged log is accepted: the log from the first conflict on is replaced and committed up to the last new entry at most. |
| LogProperties.CutOutcome | src/raft_log.rs:127-151 | An accepted message cut from a leader log never panics, removes nothing the leader log holds, and leaves the leader's entries up to its end. |
| LogProperties.CutsCommute | src/raft_log.rs:127-151 | Two acceptable messages of one leader leave the same log and commit mark in either order. |
| LogProperties.CutIdempotent | src/raft_log.rs:127-151 | Receiving a message again changes nothing. |
| LogProperties.StaleCutKeeps | src/raft_log.rs:127-151 | A stale, shorter message truncates nothing. |
| LogProperties.CutKeepsCommitted | src/raft_log.rs:127-151 | The committed entries survive every accepted message. |
| LogProperties.DeliveredExactlyOnce | src/raft_log.rs:153-183 | Over any run of appends, commits, compactions and deliveries, what was delivered is one entry per index up to `applied`, never retracted, equal to the log there. |
| LogProperties.DeliverKeeps | src/raft_log.rs:252-266 | One round of `next_entries` and `applied_to` delivers exactly what is committed and not yet applied. |
| SizeLimit.LimitSizeIsLongestFit | src/util.rs:7-27 | Of entries that occupy space the longest prefix within the limit is kept, and always at least one. |
| SizeLimit.LimitSizeOfLonger | src/raft_log.rs:340-358 | If limiting cut something, more entries behind do not change the outcome. |
| SizeLimit.LimitSizeInPlace | src/util.rs:7-27 | The one-pass truncation computes that prefix. |
| MemoryStorage.OverlayPointwise | src/storage.rs:124-159 | After an append every new index holds the new entry, every older one the old entry, and nothing follows the new entries. |
| MemoryStorage.AppendAsWrittenExact | src/storage.rs:124-159 | As written, an append stores what it is given exactly when it does not have to overwrite anything different. |
| MemoryStorage.AppendAsWrittenLoses | src/storage.rs:140-148 | A concrete overwriting append that is lost. |
| MemoryStorage.MemStorage.Append | src/storage.rs:124-159 | The intended append in place: the overlay of the new entries, indices still consecutive. |
| MemoryStorage.MemStorage.Compact | src/storage.rs:103-122 | Compaction keeps the term at every index from the compaction point on; nothing answers below it. |
| MemoryStorage.MemStorage.CreateSnapshot | src/storage.rs:70-101 | A newer snapshot takes index and stored term; an older request is refused and changes nothing. |
| MemoryStorage.MemStorage.ApplySnapshot | src/storage.rs:52-68 | A newer snapshot replaces all entries by its dummy; an older one is refused and changes nothing. |
| MemoryStorage.MemStorage.Term | src/storage.rs:217-230 | A term is known exactly from the dummy's index through the last index. |
| UnstableTail.Unstable.MaybeTerm | src/log_unstable.rs:40-58 | The tail knows the term of exactly its entries and its snapshot. |
| UnstableTail.Unstable.StableTo | src/log_unstable.rs:60-71 | A matching acknowledgement drops everything up to it, any other is ignored; the tail fits its snapshot still unless entries were dropped with one pending. |
| UnstableTail.Unstable.TruncateAndAppend | src/log_unstable.rs:88-102 | The three cases of appending: behind, instead of, and into the tail, a snapshot pending or not. |
| UnstableTail.Unstable.Restore | src/log_unstable.rs:82-86 | A restored snapshot empties the tail and puts the offset behind itself. |
| UnstableTail.Unstable.StableSnapshotTo | src/log_unstable.rs:73-80 | Only the acknowledged snapshot is forgotten. |
| LogTiers.RunRefines | src/raft_log.rs:72-215 | Over any sequence of appends, merges, commits, flushes, durable acknowledgements, snapshots and compactions the two tiers stand for the one simple log those operations make. |
| LogTiers.StableToExact | src/log_unstable.rs:60-71 | An acknowledgement leaves two tiers that fit together and the same log if and only if it is durable; this is about the representation. |
| LogTiers.LatestAckHarmless | src/log_unstable.rs:60-71 | After a flush and any appends, merges, commits, compactions and durable acknowledgements, acknowledging the end of what was flushed, its last unstable entry then, leaves the log as it is, given Log Matching by index with what was flushed. |
| LogTiers.SupersededAckUncovers | src/log_unstable.rs:60-71 | A run of flushes and appends after which a superseded acknowledgement makes the last index 3 where it was 2, although the log matches all that was flushed. |
| LogTiers.FlushTiers | src/raft_log.rs:217-223 | Writing the unstable entries over the store changes nothing visible, whatever stale tail the store held. |
| LogTiers.AppendTiers | src/raft_log.rs:201-215 | Appending to the tail is replacing the end of the joined log. |
| TwoTierLog.RaftLog.constructor | src/raft_log.rs:39-50 | A log opened over a store stands for exactly what is stored, nothing of it committed or applied beyond the base. |
| TwoTierLog.RaftLog.FirstIndex | src/raft_log.rs:91-96 | The first index of the simple log. |
| TwoTierLog.RaftLog.LastIndex | src/raft_log.rs:98-103 | The last index of the simple log; a stale stored tail does not count. |
| TwoTierLog.RaftLog.Term | src/raft_log.rs:72-89 | The term in the simple log, 0 outside it; neither store nor tail ever answers with an error. |
| TwoTierLog.RaftLog.IsUpToDate | src/raft_log.rs:248-250 | The election restriction against the simple log. |
| TwoTierLog.RaftLog.FindConflict | src/raft_log.rs:105-121 | The loop finds the first conflict with the simple log. |
| TwoTierLog.RaftLog.Slice | src/raft_log.rs:318-361 | Limiting the stored part and then the joined part is limiting the whole range once. |
| TwoTierLog.RaftLog.Entries | src/raft_log.rs:225-233 | All entries from an index on, limited; empty past the end. |
| TwoTierLog.RaftLog.NextEntriesSince | src/raft_log.rs:252-262 | Exactly the committed entries after an index. |
| TwoTierLog.RaftLog.Append | src/raft_log.rs:201-215 | The simple log with its end replaced. |
| TwoTierLog.RaftLog.MaybeAppend | src/raft_log.rs:127-151 | Rejects exactly on a mismatch, leaving the log alone; otherwise the merged log and the new commit mark. |
| TwoTierLog.RaftLog.CommitTo | src/raft_log.rs:153-168 | The commit mark never falls back. |
| TwoTierLog.RaftLog.MaybeCommit | src/raft_log.rs:309-316 | Advances only to a greater index with an entry of the given term. |
| TwoTierLog.RaftLog.AppliedTo | src/raft_log.rs:170-183 | Moves the apply mark within what is committed. |
| TwoTierLog.RaftLog.Restore | src/raft_log.rs:363-373 | The simple log becomes the snapshot's base, committed there and empty. |
| TwoTierLog.RaftLog.StableTo | src/raft_log.rs:189-191 | Every acknowledgement is taken; a durable one changes nothing visible. |
| TwoTierLog.RaftLog.Flush | src/raft_log.rs:217-223 | Flushing changes nothing visible; the store then holds the simple log. |
| TwoTierLog.RaftLog.FlushSnapshot | src/raft_log.rs:193-195 | Storing the pending snapshot changes nothing visible. |
| TwoTierLog.RaftLog.CompactStore | src/storage.rs:103-122 | Compacting at any stored index: invisible with a snapshot pending; below the tail, at or below what is committed, it only moves the base. |
| InflightWindow.FreedToIsLongestRun | src/progress.rs:439-461 | `free_to` removes exactly the longest leading run of values up to its argument. |
| InflightWindow.Inflights.Add | src/progress.rs:419-437 | The ring buffer appends to the queue; assertion and indexing never fail below capacity. |
| InflightWindow.Inflights.FreeTo | src/progress.rs:439-461 | The ring buffer drops that run, wraparound invisible. |
| InflightWindow.Inflights.FirstReadableExactly | src/progress.rs:463-466 | The slot `free_first_one` reads is missing exactly on an empty window that starts where the buffer ends, and exactly when the counts of the adds say so. |
| InflightWindow.Inflights.FreeFirstOne | src/progress.rs:463-466 | Drops the oldest value and all behind it that do not exceed it; an empty window stays empty. |
| InflightWindow.TallyCounts | src/progress.rs:419-471 | Those counts are the adds since the last reset, and the most adds between two resets. |
| InflightWindow.FirstReadableOverRuns | src/progress.rs:463-466 | Over any run of adds, frees and resets: when a caller may free the first value, in terms of what it added. |
| InflightWindow.CannotFreeFirst | src/progress.rs:463-466 | It may not after no operation at all, for any capacity, nor after one value was added and freed. |
| InflightWindow.Inflights.Reset | src/progress.rs:468-471 | The queue is empty again. |
| InflightWindow.UsedWindowCannotFreeFirst | src/progress.rs:463-466 | The second of these on the object: the slot does not exist. |
| PeerProgress.BoundedOverRuns | src/progress.rs:338-392 | Over any run of sends to unpaused peers, acknowledgements, rejections, frees and changes of state, with no condition on the rejections: the window stays within its capacity and empty unless replicating, what is matched never falls, and no send panics. |
| PeerProgress.BoundedFromReset | src/progress.rs:298-307 | So it is for every run from a record as an election leaves it. |
| PeerProgress.WindowOverRuns | src/progress.rs:419-461 | Over any run in which the peer stays replicating the window holds, in order, what was in it and the ends of the batches sent since, without a front part that was freed. |
| PeerProgress.SnapshotFromSending | src/progress.rs:309-336 | Over any run after a snapshot is sent nothing else is; the snapshot may be given up exactly once it is matched; and probing resumes behind it or what is matched, whichever is further, or right behind what is matched if it failed. |
| PeerProgress.PerformedKeepsFlow | src/progress.rs:338-392 | Every operation but a harmful rejection keeps the order: in-flight values strictly increase below the next index, and what is matched stays below it. |
| PeerProgress.RejectionExact | src/progress.rs:356-376 | A rejection keeps the order if and only if it is harmless: it does not apply; or, probing, nothing is matched yet or neither index nor hint is behind what is; or, replicating, nothing unmatched is in flight. |
| PeerProgress.StaleRejectionFallsBack | src/progress.rs:356-376 | A concrete outdated rejection, while probing, that takes the next index below what is matched. |
| PeerProgress.ReplicatingRejectionDisorders | src/progress.rs:356-376 | A concrete first rejection, while replicating, after which the next send makes the window 5, 6, 7, 5. |
| PeerProgress.BecomingRestoresFlow | src/progress.rs:309-323 | Falling back to probing, or replicating afresh, restores the order from any record. |
| PeerProgress.FlowOverRuns | src/progress.rs:309-392 | The order is kept over every run in which the leader answers each harmful rejection by falling back to probing or replicating afresh. |
| PeerProgress.FlowFromReset | src/progress.rs:298-307 | So it is for every such run from a record as an election leaves it. |
| PeerProgress.Progress.MaybeUpdate | src/progress.rs:338-350 | Matched and next index never fall back, and only news resumes sending. |
| PeerProgress.Progress.MaybeDecrTo | src/progress.rs:356-376 | Stale rejections are ignored; otherwise back to the matched index, or to the hint while probing. |
| PeerProgress.Progress.BecomeProbe | src/progress.rs:309-318 | Probing resumes behind what is matched, or behind the pending snapshot. |
| PeerProgress.Progress.Reset | src/progress.rs:298-307 | Everything but the capacity is forgotten. |
| PeerProgress.Progress.RecordSent | src/raft.rs:411-422 | A sent batch is recorded without reaching either panic. |
| PeerSet.CountInDescending | src/progress.rs:199-208 | In a descending buffer the value at place k decides whether more than k values reach an index. |
| PeerSet.SortDescending | src/progress.rs:204-205 | Sorting leaves a descending buffer with the same counts. |
| PeerSet.ProgressSet.MaximalCommittedIndex | src/progress.rs:199-208 | The greatest index a majority of the voters has matched, in whatever order the map is walked. |
| PeerSet.ProgressSet.CandidacyStatus | src/progress.rs:210-240 | Elected by a quorum of acceptances, out of the running by a quorum of rejections. |
| PeerSet.RejectedIsHopeless | src/progress.rs:210-240 | After a quorum of rejections no further answers can elect. |
| PeerSet.ProgressSet.QuorumRecentlyActive | src/progress.rs:242-260 | Whether a majority, the asking node included, was active; all other marks are cleared. |
| ReadIndex.Conservation | src/read_only.rs:48-96 | Over any run, what was accepted is, in order, what was released and what waits; each request leaves at most once, with exactly the acknowledgements received while it waited. |
| ReadIndex.ReadOnly.AddRequest | src/read_only.rs:48-65 | Map and queue together gain the request at the end, unless its context already waits. |
| ReadIndex.ReadOnly.RecvAck | src/read_only.rs:67-77 | The acknowledgement is recorded with its request; the answer adds the receiver. |
| ReadIndex.ReadOnly.Advance | src/read_only.rs:79-96 | Releases exactly the prefix up to the acknowledged context, and never panics. |
| RaftNode.Raft.constructor | src/raft.rs:160-244 | A node started over a store is the restarted node of the runs, with the stored hard state. |
| RaftNode.Raft.HardState | src/raft.rs:278-285 | Restarting from it gives back the node's term, vote, commit mark and log. |
| RaftNode.Raft.LoadState | src/raft.rs:1164-1178 | Term, vote and commit mark are taken over. |
| RaftNode.Raft.Send | src/raft.rs:313-345 | Queues the message with its sender, and with the node's term unless it is a vote message, a proposal or a read request. |
| RaftNode.ResetMeans | src/raft.rs:484-509 | Log and settings stay, the vote if the term does; every record is one of which nothing is known, to be probed from behind the end of the log. |
| RaftNode.Raft.Reset | src/raft.rs:484-509 | The vote is forgotten only with its term; leader, votes, peers' records, election timer, waiting reads, a pending configuration change and a transfer start afresh. |
| RaftNode.Raft.BecomeFollower | src/raft.rs:577-582 | The step to follower of a term and leader. |
| RaftNode.Raft.BecomeCandidate | src/raft.rs:584-596 | The next term, with the node's own vote. |
| RaftNode.Raft.BecomePreCandidate | src/raft.rs:598-609 | Neither term nor vote changes. |
| RaftNode.Raft.BecomeLeader | src/raft.rs:611-629 | Leader of the current term, with an empty entry appended and the index before it noted as pending configuration. |
| RaftNode.Raft.AppendEntry | src/raft.rs:511-523 | Entries are stamped with term and index, appended, counted as matched, and the commit rule is run. |
| RaftNode.Raft.MaybeCommit | src/raft.rs:479-482 | The log's commit test at the maximal committed index. |
| RaftNode.Raft.RegisterVote | src/raft.rs:688-690 | Only a voter's first answer counts. |
| RaftNode.Raft.Campaign | src/raft.rs:637-686 | A campaign asks every other voter, or is won at once; a won pre-election leads to the election. |
| RaftNode.Raft.SendAppend | src/raft.rs:426-442 | One batch to one peer, and what it does to the peer's record. |
| RaftNode.Raft.PrepareSendEntries | src/raft.rs:398-424 | The message at the next index, with previous term and commit mark. |
| RaftNode.Raft.BcastAppend | src/raft.rs:456-463 | Every other peer gets its own batch; no peer's turn disturbs another's. |
| RaftNode.Raft.SendHeartbeat | src/raft.rs:444-454 | A heartbeat commits no further than the peer has matched. |
| RaftNode.Raft.HandlerAppendEntries | src/raft.rs:976-1015 | The three answers to an append. |
| RaftNode.Raft.HandlerHeartbeat | src/raft.rs:1017-1024 | Commits and answers with the context. |
| RaftNode.Raft.HandlerAppendResponse | README.md:299-304 | The rule for acknowledgements. |
| RaftNode.Raft.HandlerVoteRequest | src/raft.rs:823-852 | Grants or refuses with one message; only a real vote is recorded, and only that restarts the election timer. |
| RaftNode.Raft.StepCandidate | src/raft.rs:898-970 | A candidate follows a leader of its term or counts the answers meant for its role. |
| RaftNode.Raft.Enter | src/raft.rs:692-784 | The comparison of terms; a vote request of a higher term is ignored exactly under a live lease, unless a leader transfer forces it. |
| RaftNode.Raft.Hup | src/raft.rs:791-821 | A campaign starts unless a configuration change is committed but not applied. |
| RaftNode.Raft.Step | src/raft.rs:692-862 | One message: exactly the step of the runs, with the choices the source means to make. |

## Left out

- Snapshot messages (`prepare_send_snapshot`, `handler_snapshot`, `restore_raft`) are not in the cluster, and no step of a run compacts a log: the logs of runs start at index 1. Snapshots and compaction are modelled in the two-tier log, and the log properties allow a compacted follower.
- Leader transfer, configuration changes, inserting, removing and promoting peers: the set of voters is fixed for a run.
- Ticks and the random election timeout: a timeout may happen at any moment. The lease test is modelled in `Raft`; in the runs a lease may or may not be live.
- The loss of unflushed entries in a crash: a restarted node has the log it had.
- The bodies of `step_leader` and `step_follower` beyond the handlers named above, which the source does not have; proposals, heartbeats and flow-control changes are steps of their own.
- The read-index queue is proved by itself; the runs say of its heartbeats that contexts come back unchanged and from no one else (`Heartbeats`), but do not connect them to the queue, as `step_leader` does not.
- 64-bit overflow of terms, indices and sizes: they are unbounded naturals.
- The `context` and unknown fields of entries, which add nothing but size; the size of an entry is that of its type, term, index and data.
- `Arc<RwLock<..>>`, errors other than those of the store, logging, `src/config.rs`, `src/eraftpb.rs`, plain getters and setters.
- A peer's record lives in its set by value, so aliasing between a record and the set is not captured; `PeerProgress.Progress` models one record in place.
- Messages queued by one call of `Raft` are compared as sets: the order among the messages of one broadcast, which follows the iteration order of a hash map, is left open.
- Theorems.NoPanic: the debug assertion that a window has room for something is not an outcome of the runs; it holds in those that start with room (`WindowRoom.CapacityStays`), and the configuration refuses a capacity of 0.
- PeerProgress.FlowOverRuns: says nothing of a leader that does not answer a harmful rejection; the source's `step_leader` does not say what it does, and without an answer the order is lost (`ReplicatingRejectionDisorders`).
- Replication.Converges: and `StreamingConverges` are about rounds while the leader appends nothing new; `ReachableServes` is about what is appended.
- MemoryStorage.MemStorage.CreateSnapshot: the configuration state a snapshot carries is not modelled.
- RaftNode.Raft.constructor: peers and configuration are given as a `ProgressSet`; reading them from the stored configuration state is not modelled.
- RaftNode.Raft.Campaign: the campaign of a leader transfer and its context are not modelled; only `step_follower`, a stub, could start one.
- RaftNode.Raft.SendAppend: no snapshot is sent when the next index is compacted; nothing is sent then.
- RaftNode.Raft.StepCandidate: snapshot messages are not modelled, and a dropped proposal has no error value.
- RaftNode.Raft.Step: snapshot messages and read requests are ignored, as `step_leader` and `step_follower` do not handle them yet.
