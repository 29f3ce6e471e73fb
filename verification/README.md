# A verified model of the simpleraft node

The project models one Raft node written in Go, and networks of such nodes: the thirty rule
handlers, the executor that carries out the actions they return, the durable log and status in
their shared key-value store, the bundled key-value state machine, and a network that loses,
duplicates and reorders messages while nodes stop and restart. The code is modelled as it is
written, including where it departs from the Raft paper ("In Search of an Understandable
Consensus Algorithm", Ongaro and Ousterhout).

## Layers

- `Types`, `Rules`: entries, messages, actions, the node as one value, and each handler as a
  function from that value to a list of actions. `RuleHandler` holds the handlers that loop, as
  methods with those loops, proved equal to the functions.
- `Interpreter`: the action interpreter as a terminating function `Implement`, with `React` (one
  event) and `Restart`. `Executors` is the executor as a class over `Statuses`, `RaftLogs`,
  `KeyValue` and one shared `Storage`, which changes them in place and is proved to do what
  `Implement`, `React` and `Restart` say. So every theorem about `React` is one about the class.
- `Reactions`, `Effects`: what one event does, in closed form, nested state changes included: the
  tools of all further proofs. `Voting`, `Hearing`, `StepDowns`, `Leading`, `Membership` and
  `Reading` state what one event does from the fields of node and message alone.
- `Network`: any number of nodes, the packets between them, and a history no node reads (who led
  which term, each leader's log, votes cast, votes counted).
- `Steps`, and concrete runs built from it, that show what the code does not secure by itself and
  what the hypotheses allow: `TwoLeaders`, `VotingNeeded` (a term led twice), `LostCommit`
  (commits lost), `FirstCommit` (entry 0 committed twice over, and two membership changes at
  once), `HonestCommit` (commits kept, and cut off by a late request), `FutureRead` (a read
  answered with a later write).
- The other modules state the results.

## Model

| member | source | states |
|---|---|---|
| LogMatching.LogMatchingProperty | rulehandler/follower.go:50-139 | Over every run with loss, duplication, reordering, restarts and membership changes in which no term had two leaders: entries of equal index and term make two logs agree on term, kind and command there and at every earlier index |
| LogMatching.MatchedAlways | rulehandler/leader.go:221-270 | Under the same hypothesis every log is, entry by entry, a stretch of the log of the leader of that entry's term, and so is every append request that carries entries or that a timeout built (an opening heartbeat, being empty and misdated, promises nothing) |
| LogMatching.TakenAgrees | rulehandler/follower.go:50-94 | A follower whose consistency check passes a request quoting a leader's log holds that leader's log as far as the request reaches |
| TwoLeaders.SameTermTwice | rulehandler/follower.go:14-17 | A concrete run of three nodes with two leaders in term 2 and different commands at one index and term: Election Safety and Log Matching fail without their hypotheses |
| VotingNeeded.OneVoteNeeded | rulehandler/follower.go:14-17 | A run in which every counted grant is of another member and of the candidate's own term, and yet a term has two leaders, because a node votes for two candidates: the first voting hypothesis of Election Safety is needed beside the second |
| VotingNeeded.CleanCountsNeeded | rulehandler/candidate.go:182-191 | A run in which nobody votes for two candidates in one term, and yet a term has two leaders, because one counts a grant of an earlier term: so is the second beside the first |
| LostCommit.CommittedCommandsLost | rulehandler/leader.go:364-375 | A further run, in which a leader commits and applies three commands on the answer to its opening heartbeat, and in the end leads again while nobody's log holds any, although no term had two leaders, nobody voted twice in a term and every counted grant was clean |
| Safety.VoterHoldsPrefix | rulehandler/follower.go:246-272 | Election restriction with content: a voter granting its vote to a candidate whose last term equals its own holds a prefix of the candidate's log as that stood when it asked |
| Safety.AcknowledgementSound | rulehandler/leader.go:364-375 | A success reply sets matchIndex to the leader's last index; this is right if the leader's log has not grown since the request, and for a request with entries only then |
| Commitment.LeaderCompleteness | rulehandler/leader.go:377-403 | Leader Completeness: in a fixed cluster of odd size with clean votes and no stale truncation, what a leader commits and some winning set of members holds at some time in its term - whichever peers it counted - is in the log of every leader of a later term, over every run |
| Commitment.CommitsAgree | rulehandler/leader.go:377-403 | State Machine Safety of commits: of any two commits so held, by whichever leaders in whichever terms, one extends the other |
| MachineSafety.StateMachineSafety | rulehandler/follower.go:170-200 | State Machine Safety for every node: in a fixed cluster of odd size with clean votes, no stale truncation and a winning set that holds whatever is committed beyond entry 0, no two nodes, at whatever times, differ in what anything both have committed does, nor - once both have committed past entry 0 - in its term |
| MachineSafety.CommittedIsFinal | rulehandler/follower.go:86-94 | In such runs no step of a living node but a restart changes what anything committed does, overwrites it once the node has committed past entry 0, lowers its commit index, or leaves that index outside its log |
| MachineSafety.AllBacked | rulehandler/follower.go:170-178 | In such runs whatever commit index a node has or a request announces lies in the log in question, and if it is past entry 0 some leader has committed that far before, and the log holds all of that commit |
| Openings.OpeningRefused | rulehandler/leader.go:48-49 | The opening heartbeat, which dates the entry before it wrongly, is accepted only over an empty log |
| Openings.FirstEntryIdle | rulehandler/leader.go:13-23 | Over every run in which no term had two leaders, entry 0 of every log is a no-operation entry |
| Commitment.CommitKept | rulehandler/follower.go:86-94 | The leader, and whoever else holds in its term what it so commits, never lose it, whatever they take from later leaders, restarts included |
| Commitment.BackersQuorum | rulehandler/leader.go:380-394 | Whenever a leader raises its commit index, the peers it counted and itself are a winning quorum |
| Completeness.QuorumKept | rulehandler/follower.go:246-272 | The core of it: what a quorum has held in the term of its last entry is in the log of every leader of a later term |
| Completeness.CandidaciesAlways | rulehandler/candidate.go:27-44 | In every reachable state voters and candidates are not behind the terms they voted and ran in, and what a candidate told of its log is true while its candidacy lasts |
| LostCommit.HonestyNeeded | rulehandler/leader.go:371-375 | The run that loses commits meets every hypothesis of Leader Completeness but that a winning set ever holds what is committed |
| HonestCommit.FreshnessNeeded | rulehandler/follower.go:86-94 | A run that meets every hypothesis of Leader Completeness but the one on stale truncation: a request overtaken by a later one cuts an honestly committed command off, and the leader of the next term does not hold it |
| Delivery.OrderedRunsFresh | rulehandler/follower.go:86-94 | Stale truncation comes from overtaking: over every clean run in which no node gets a request with entries after another one of the same leadership that was sent later, none is stale, however many requests are lost, repeated or late |
| Delivery.FedAlways | rulehandler/follower.go:86-139 | Over every run in which no term had two leaders, what a node holds of its own term, unless it led it, came in an earlier request of that term's leader built over a log that long |
| HonestCommit.GoodRunCommits | rulehandler/leader.go:364-403 | A run whose leader commits entry 0 on the answer to its opening heartbeat, then commits a command, and is followed by another leader, meets all these hypotheses, and the new leader holds the command |
| Acknowledgement.TimelyRunsHonest | rulehandler/leader.go:371-403 | Honest counting from what a leader sees: if every success reply it counts answers a timeout request of the same leadership over a log that has not grown since - any reply will do while the log is entry 0 alone - then over every such clean run a winning set holds whatever is committed beyond entry 0 |
| Acknowledgement.InformedAlways | rulehandler/leader.go:371-375 | In such a run, at any time, each peer has held in the leader's term all that its match index claims past entry 0, and whoever answered a timeout request with success has held what that request spoke for |
| FirstCommit.EntryZeroDiffers | rulehandler/leader.go:38-41 | Why entry 0 is an exception: a run of three nodes that meets all these hypotheses, in which a leader commits entry 0 with nobody else holding it, the next leader does not hold it and commits another, and both end in office with different terms at index 0 |
| Elections.ElectionSafety | rulehandler/candidate.go:168-199 | In a fixed cluster of odd size, if nobody votes twice in a term and every counted grant is from a distinct member for the candidate's current term, no term has two leaders, over every run |
| Elections.LogMatchingFromVotes | rulehandler/follower.go:50-94 | Under those voting hypotheses any two logs match in every reachable state |
| Elections.QuorumsMeetIffOdd | rulehandler/candidate.go:193-194 | Any two sets of members that pass the election test intersect exactly when the cluster size is odd |
| Elections.TestsAgree | rulehandler/leader.go:377-394 | The election test and the commit test accept the same counts: at least half the cluster |
| Elections.VotesAlways | rulehandler/candidate.go:11-21 | Over every run of a fixed cluster each leader had, in its term, its own vote and enough counted grants to pass the test |
| TermOrder.TermOrderAlways | rulehandler/follower.go:43-80 | In every reachable state, with no hypothesis: log terms never decrease along a log nor exceed the node's term, a leader's last entry is of its own term, and every append request carries its terms in order |
| TermOrder.HonestRequest | rulehandler/leader.go:229-268 | What a timed-out leader sends is its own log from there on, and the previous term it claims is the real one |
| NodeRuns.TermsNeverDecrease | rulehandler/follower.go:43-48 | The current term never goes back over any run, restarts included |
| NodeRuns.CandidacyRaisesTerm | rulehandler/candidate.go:11-14 | Every candidacy raises the term by exactly one |
| NodeRuns.LeadershipFollowsCandidacy | rulehandler/candidate.go:187-198 | Every leadership follows an unbroken candidacy of the same term begun earlier in the run |
| NodeRuns.LeadershipTermsIncrease | rulehandler/leader.go:343-352 | The terms one node leads strictly increase |
| NodeRuns.OneCandidatePerStretch | rulehandler/follower.go:236-272 | In a stretch without timeout or restart all votes a follower grants, in whatever terms, go to one candidate |
| NodeRuns.SecondVoteSameTerm | rulehandler/candidate.go:142-147 | A timeout breaks that: a node votes for itself and then, in the same term, for another |
| Config.TrackingKeptIff | rulehandler/follower.go:89-166 | If each change record describes the configuration before it and the status holds the latest configuration, the status holds it after any event, rewinding through several deleted changes included, exactly unless the node is a leader carrying out a change |
| Config.RewindTerminates | rulehandler/follower.go:101-119 | The rewind loop ends, at the configuration of the log cut after PrevLogIndex |
| Config.ChangeRecordedIff | rulehandler/leader.go:124-146 | The entry a leader appends describes the configuration before it exactly when the leader's status described the configuration its log amounts to |
| Reconfiguration.SecondChangeMisrecorded | rulehandler/leader.go:124-146 | A leader that carries out two changes without losing office has, ever after, a log whose change records are wrong |
| Reconfiguration.ChangesNeverWait | rulehandler/leader.go:109-123 | Once a leader may start a change it may start another at any later moment of that leadership: its own change never makes it answer that one is in progress, since it does not record it |
| FirstCommit.TwoChangesTaken | rulehandler/leader.go:105-155 | A run in which a leader with one entry committed takes two additions in a row, neither committed; its log records the second wrongly, and the five servers it then counts and the three its peers count have winning sets that do not meet |
| Reconfiguration.NeighboursNeedNotMeet | rulehandler/candidate.go:193-194 | Even one server more: a winning set of any cluster can miss one of the cluster with a server added |
| Reconfiguration.OwnChangeCut | rulehandler/follower.go:97-139 | A leader changes the cluster, anything may follow - stepping down, restarts, further changes of its own, requests that bring no change and reach back less far - and then its change is cut off: it keeps the peers it has by then, unless the cut goes back before an earlier change or brings another one; exactly in those cases, or if its changes made no difference, its status holds the configuration of its log again |
| Reconfiguration.BroughtChangeTracks | rulehandler/follower.go:145-166 | Whatever its status said before, a node that takes a request bringing a change has the latest configuration of its log in its status |
| Reconfiguration.ChainedAlways | rulehandler/follower.go:89-166 | Over every run in which no term had two leaders and every change was started by a leader that knew its configuration, every change in every log describes the configuration before it, however often logs were cut and spliced |
| Reconfiguration.TracksAlways | rulehandler/follower.go:89-166 | In such a run a node that starts no change itself always has the latest configuration of its log in its status |
| Config.AddedPeersRightIff | rulehandler/leader.go:124-136 | Adding a server leaves the leader's peers in line with the new configuration exactly when the server is not the leader itself |
| Config.RemovedPeersRightIff | rulehandler/leader.go:177-190 | Removing a server leaves the leader's peers in line with the new configuration exactly when it was listed once, or when the blanks left for further copies happen to name a listed peer |
| ChangeRecords.SearchAlwaysEnds | rulehandler/follower.go:101-119 | Over every run in which no term had two leaders, the rewind loop ends in every node, wherever its log is cut |
| ChangeRecords.HandlerDiesIff | rulehandler/follower.go:170-200 | In such a run the handler of an accepted request dies, in any living node, exactly when the announced commit index runs more than one past what the request reaches and more than one past what is committed |
| ChangeRecords.LinkedAlways | iface/iface.go:537-551 | In such a run every change entry in every log is recorded and points to an earlier change of that log, and so does every status |
| CommitScan.ScanIsMedian | rulehandler/leader.go:377-403 | For a leader with term-ordered log the scan yields the ceil(n/2)-th largest match index, if that lies ahead and is of the current term, and else the old commit index |
| CommitScan.ReplicatedIsKth | rulehandler/leader.go:380-390 | When no match index exceeds the leader's log that index is the order statistic of the match indices, the leader's last index among them |
| CommitScan.KthLargestCounts | rulehandler/leader.go:382-390 | At least k of a list reach a bound exactly when its k-th largest does |
| Repair.LogRepaired | rulehandler/leader.go:221-273 | The timeout, append, reply loop succeeds within nextIndex + 1 rounds if and only if the leader's commit index is at most one past its log or one past the follower's commit index, and then the follower agrees with the leader through its last index and nextIndex is one past it; otherwise the follower dies by then. Between rounds the leader may handle anything that leaves its log, office and index for this follower alone |
| Repair.RepairedInRuns | rulehandler/leader.go:221-273 | The same, nextIndex included, between any two living nodes of any run in which no term had two leaders, one leading and the other not in a later term, with everything else the loop needs established by the run |
| LostCommit.RepairKills | rulehandler/follower.go:182-194 | The failing side, reached: the leader that lost its commits has its commit index out of its own and its voter's reach, and the second round of the loop halts that voter |
| Repair.RoundFails | rulehandler/leader.go:354-362 | A failed round the follower survives lowers nextIndex by one, never below zero, and leaves the rest ready for the next round |
| Repair.RoundSucceeds | rulehandler/leader.go:364-375 | A successful round makes the follower's log agree with the leader's whole log, and needed an announceable commit index |
| CommitAgreement.SenderCovers | rulehandler/leader.go:229-268 | An append request emitted by a leader reaches its commit index exactly when that is within its log; opening heartbeats included |
| CommitAgreement.ReceiverTakesCommit | rulehandler/follower.go:170-200 | A follower accepting a covering request takes exactly the announced commit index when that is larger, and its apply loop stays inside log and message |
| CommitAgreement.WalkEscapesIff | rulehandler/follower.go:182-194 | When the apply loop reads outside log and message, exactly |
| CommitAgreement.CommitIndexAgreed | rulehandler/follower.go:170-178 | Sender and receiver together: the follower ends with the larger of both commit indices |
| Replay.ReplayConverges | statemachine/statemachine.go:32-50 | Applying any subsequence of a command list and then the whole list is applying the list once |
| Replay.LeaderDatabaseIsFold | rulehandler/leader.go:405-422 | Since the last start, if what committed entries do never changes, the commit index never goes back and nothing panics, a leader's database after its apply loop is the fold of the log up to lastApplied, whatever it applied while a follower |
| MachineSafety.LeaderDatabaseInRuns | rulehandler/leader.go:405-422 | In such runs a leader that applies has, afterwards, exactly the fold of its log up to lastApplied, across all changes of role, truncations and restarts |
| MachineSafety.ConvergesAlways | statemachine/statemachine.go:32-50 | In every state of such a run every living node's database is the fold of what it has applied, except on keys that committed entries past lastApplied write |
| Replay.StepConverges | rulehandler/follower.go:179-200 | Each event that leaves what is committed doing the same and keeps the commit index from going back keeps the database equal to that fold except on keys written by committed entries past lastApplied |
| Ticket.TicketNamesPlace | rulehandler/leader.go:276-298 | The index and term in the reply are where the command lands |
| Ticket.CommandStays | rulehandler/leader.go:405-422 | While the node stays leader the entry stays there and, once lastApplied reaches it, holds the result of exactly one application |
| Ticket.ProbeHonoured | rulehandler/leader.go:301-337 | While the node stays leader a probe with the ticket never fails, and once applied returns the result of that very command run right after the entries before it; needs lastApplied within the log at acceptance |
| Ticket.EarlyCompletionIff | rulehandler/leader.go:301-337 | Without that bound, and exactly then, a probe right after acceptance reports completion of a command never run |
| LostCommit.TicketLies | rulehandler/leader.go:301-337 | A reachable leader that does so, in a run that meets every hypothesis of Election Safety |
| Discipline.OneAnswerEach | executor/executor.go:545-587 | Each request gets exactly one reply, except an append reaching a leader with no larger term and requests the node dies on first; other events get none |
| Discipline.NoReplyWithoutChannel | executor/executor.go:545-587 | No reply action is ever run without a reply channel |
| Discipline.DiesIff | executor/executor.go:525-767 | All the ways an event can make the process panic or hang, in both directions |
| Bounds.DiesInRunsIff | executor/executor.go:525-767 | The same for every living node of every reachable state, with no hypothesis |
| Bounds.BoundsAlways | status/status.go:183-184 | In every reachable state neither the commit index nor lastApplied of a living node is below -1 |
| Discipline.RemovingDies | executor/executor.go:640-650 | Removing a server panics exactly when it is not among the peers |
| Discipline.ReprocessAsFollower | rulehandler/candidate.go:53-87 | When the executor reaches a Reprocess action the node is a follower, and the event is an append or vote request |
| Interpreter.HandleLevel | executor/executor.go:603-609 | How deeply a handler's list can nest into the interpreter; with the interpreter's own measure, its termination |
| Interpreter.HandleForm | rulehandler/leader.go:66-102 | Each handler's list is flat, ends in a state change, or steps down to follower and then reprocesses |
| Interpreter.OnStateChangedFlat | executor/executor.go:603-609 | A state change is handled without further nesting |
| Interpreter.ImplementConcat | executor/executor.go:545-767 | Carrying out a list is carrying out its halves in turn |
| Types.Indices | status/status.go:331-347 | Rebuilt index maps: one index per peer, known ones kept, new ones fresh, nobody else |
| Voting.VoteGrantedIff | rulehandler/follower.go:207-282 | When a vote is granted, in any role, exactly: no leader heard for the minimum election timeout, the term not old, the vote free or already the candidate's, and the candidate's last entry of a later term than the voter's or of the same term at no smaller index, or the voter's log empty; and what the answer carries |
| Voting.VoterAfter | rulehandler/follower.go:219-272 | The voter afterwards: the larger term, unless a follower or leader heard from a leader lately; the vote recorded exactly when granted, and forgotten by whoever steps down; nothing else |
| Voting.OneOfTwoGrants | rulehandler/follower.go:246-272 | Of any two logs one at least is good enough for the other's vote, and both, if neither is empty, exactly when they end at the same index in the same term |
| Voting.CandidacyStarts | rulehandler/candidate.go:8-47 | A follower's timeout: term raised by one, own vote, and one request to each peer in order that quotes its last entry |
| Voting.CandidacyGivenUp | rulehandler/candidate.go:142-147 | A candidate's timeout: follower of the same term, vote forgotten, nothing sent |
| Voting.VoteCounted | rulehandler/candidate.go:168-199 | A vote answer in any role: stepping down for a later term, one more vote for a grant of whatever earlier term, victory exactly when twice the votes exceed the number of peers |
| Voting.ElectionWon | rulehandler/leader.go:10-63 | The whole take-over: no-operation entry appended, nextIndex at that entry and matchIndex 0 for every peer, one misdated empty request to each in order |
| StepDowns.LeadershipEndsIff | rulehandler/leader.go:66-101 | A living leader leaves office if and only if an append request, a vote request or an append reply of a later term reaches it |
| StepDowns.CandidacyEndsIff | rulehandler/candidate.go:50-100 | A living candidate ceases to be one if and only if it times out, hears from a leader of no earlier term, gets a vote request or vote answer of a later one, or wins; and when it wins |
| StepDowns.FollowerRunsIff | rulehandler/follower.go:297-302 | A living follower stays one unless it times out |
| Leading.LeaderFeeds | rulehandler/leader.go:221-273 | A leader's timeout: to each peer in order everything from its next index on with the entry before it and its term, or an empty request; nothing changes; or death, exactly if a next index is negative |
| Hearing.AppendHeard | rulehandler/follower.go:33-87 | An append request heard, also by stepping down: the larger of both terms and the time of hearing are taken on either answer; acceptance if and only if the term is not old and the previous entry is there with the term named, or none is needed; and which term the answer carries |
| Hearing.RefusalKeeps | rulehandler/follower.go:43-80 | A refusal changes nothing else |
| Hearing.AcceptedLog | rulehandler/follower.go:89-139 | An acceptance: the log up to the previous entry and then what was sent; without entries, as it was |
| Hearing.AcceptedCommit | rulehandler/follower.go:170-200 | The commit index taken as far as the request reaches, the commands past the old one and before the announced one applied - their values and results spelled out - or death of one that does not decode |
| Hearing.AcceptedConfig | rulehandler/follower.go:141-166 | The last change among the entries sent: its place, term, and members but the node itself become the node's; without any, and none cut off, nothing changes |
| Hearing.DiesUnanswered | rulehandler/follower.go:179-194 | If no change has to be searched for: death before an answer, exactly when the announced commit index runs more than one past both what the request reaches and what is committed |
| Hearing.NotHeard | rulehandler/candidate.go:65-74 | An append request of a term too old for a candidate or leader changes nothing; only a candidate answers |
| Leading.ReplyUncounted | rulehandler/leader.go:340-362 | A reply that does not count: nothing outside leadership, stepping down for a later term, else the next index lowered by one |
| Leading.ReplyCounted | rulehandler/leader.go:364-424 | A success reply: the peer taken to hold the whole log; the commit index moved to the highest later entry of the leader's term that it and at least half the cluster, itself included, are taken to hold; every command past lastApplied up to there applied - values and results spelled out - or death |
| Membership.ChangeHindered | rulehandler/leader.go:109-123 | A change is refused, and with which words, exactly unless the last change known and an entry of the current term are committed |
| Membership.ServerAdded | rulehandler/leader.go:124-155 | An addition: the record names the configuration known, the leader included, and that one with the server; the server is listed once; the index of the last change stays |
| Membership.ServerRemoved | rulehandler/leader.go:177-218 | A removal: the record names the configuration without the server; the peers, blanks included; death for anybody who is no peer |
| Membership.AdditionAdds | rulehandler/leader.go:131-136 | For a leader that knows the configuration of its log an addition adds exactly the new server to it |
| Membership.RemovalRemoves | rulehandler/leader.go:177-196 | And a removal takes exactly that server out |
| Membership.AdditionAdopted | rulehandler/follower.go:145-166 | A follower that accepts the addition has the leader, all the leader listed and the new server as peers, except itself |
| Membership.RemovalAdopted | rulehandler/follower.go:145-166 | One that accepts a removal has the leader and all it listed, except the server removed and itself |
| Membership.CutFallsBack | rulehandler/follower.go:97-134 | A request without changes that cuts changes off makes the node fall back to the configuration of what is left, its peers being all of it but itself |
| Leading.CommandTaken | rulehandler/leader.go:276-298 | A command: entry appended in the leader's term, ticket with its place |
| Reactions.ProbeOutcome | rulehandler/leader.go:301-337 | A probe changes nothing and is answered by the first test that applies: index not in the log, not applied yet, another term, and else the entry's result |
| Reactions.ClientRefused | rulehandler/follower.go:285-314 | Outside leadership client requests change nothing and are answered with not leader |
| StepDowns.RestartLeaves | executor/executor.go:61-148 | A restart: what survives, what starts afresh, and the vote forgotten |
| Effects.Effect | executor/executor.go:525-767 | One event leaves a log as it is, adds one entry of the current term to a leader's, or splices in what a request says; terms and roles move only as the election rules allow |
| Effects.Outputs | executor/executor.go:687-734 | What can be sent, by whom and when |
| Effects.AppendTaken | rulehandler/follower.go:78-139 | A request taken: the agreed prefix and what was sent, in the sender's term |
| Outcomes.FollowerApplies | rulehandler/follower.go:170-200 | The commit index a follower takes and the commands it applies; lastApplied never moves |
| Outcomes.LeaderApplies | rulehandler/leader.go:405-422 | A leader applies everything past lastApplied up to the commit index in order, or dies of a command that does not decode; with lastApplied past its log it only bumps that index |
| Outcomes.OthersKeep | executor/executor.go:525-767 | No other event moves commit index, lastApplied or database, or alters entries |
| RuleHandler.FindSurviving | rulehandler/follower.go:97-119 | The rewind loop finds what the search function finds |
| RuleHandler.Adopt | rulehandler/follower.go:145-166 | The backward loop takes the last change among the new entries |
| RuleHandler.Walk | rulehandler/follower.go:182-200 | The apply loop: its list, and exactly when it dies |
| RuleHandler.FollowerOnAppendEntries | rulehandler/follower.go:33-204 | The looping handler returns the list the rule function gives, whose effect the rows of Hearing state |
| RuleHandler.CandidateOnStateChanged | rulehandler/candidate.go:8-47 | Likewise for the loop over peers |
| RuleHandler.LeaderOnStateChanged | rulehandler/leader.go:10-63 | Likewise for the first heartbeats |
| RuleHandler.LeaderOnRemoveServer | rulehandler/leader.go:158-218 | Likewise for the loop that drops one address |
| RuleHandler.LeaderOnTimeout | rulehandler/leader.go:221-273 | Likewise for the loops over peers and entries, and exactly when it dies |
| RuleHandler.FindCommit | rulehandler/leader.go:380-398 | The two nested loops find the commit index of the scan |
| RuleHandler.LeaderOnAppendEntriesReply | rulehandler/leader.go:340-424 | The looping handler returns the list the rule function gives |
| RuleHandler.Handle | executor/executor.go:199-485 | Dispatch by role and event |
| KeyValue.StateMachine.Apply | statemachine/statemachine.go:32-50 | A write stores and returns its value, a read returns the stored value or nothing and changes nothing, and the panic on bytes that do not decode |
| Reading.ReadsLastWrite | statemachine/statemachine.go:41-50 | After any list of commands a read returns the value last written to its key, or nothing; a write returns its own value and leaves other keys alone |
| Reading.LastWriteStands | statemachine/statemachine.go:41-44 | After any list of commands every key has the value last written to it, or what it had |
| Reading.AppliedMeans | executor/executor.go:676-685 | After an apply loop every key is as the last write among the entries says, and beside each command stands its own value or the value its key had just before |
| ReadAnswers.ProbeReads | rulehandler/leader.go:301-337 | What a probe hands out for a command, while its leader stays: its own value for a write; for a read the last write to its key among the entries applied since, else what the database held when it was applied |
| ReadAnswers.ReadsPast | rulehandler/leader.go:405-422 | Where the database stands for the applied prefix up to pending keys, that is what the log before the read says from its start, if no committed entry at or after it writes to the key |
| FutureRead.ReadsDisagree | rulehandler/follower.go:179-200 | That happens: a run that meets every hypothesis of State Machine Safety and ends with two leaders that answer the same ticket of a read differently, the later one with a write that comes after the read in the log and that it had applied as a follower |
| ReadAnswers.ReadsFuture | rulehandler/follower.go:179-200 | And only then: if one does, and none before it that is not applied yet, the same node may hold any value there, as having applied it as a follower, and the read finds it |
| Executors.Executor.ImplementActions | executor/executor.go:525-767 | The list carried out in place leaves the state and the outputs the interpreter gives, and ends |
| Executors.Executor.OnEvent | executor/executor.go:153-170 | One event in place is the reaction on values |
| Executors.Executor.ExcludeServer | executor/executor.go:640-650 | Copying all other addresses into a list one shorter: its contents, blanks included, or the panic |
| Executors.Executor.CopyOthers | executor/executor.go:641-649 | That copying loop: overflow exactly when the address is missing |
| Executors.Executor.IncludeServer | executor/executor.go:626-638 | Adding an address once |
| Executors.Executor.DeleteEntries | executor/executor.go:596-601 | Dropping entries one by one, and the panic when the log runs out |
| Executors.Executor.ApplyEntry | executor/executor.go:676-685 | The command's result is written beside it in the log |
| Executors.Executor.constructor | executor/executor.go:61-121 | Opening storage gives back the durable status and the log, and defaults for the rest |
| Executors.Executor.Run | executor/executor.go:130-148 | Start-up enters the follower state |
| Executors.Reboot | executor/executor.go:61-148 | A process that dies and comes back over the same storage is the node's restart on values |
| Executors.Boot | executor/executor.go:61-148 | A process on fresh storage is the node a network begins with |
| RaftLogs.RaftLog.Open | raftlog/raftlog.go:26-51 | Reopening the store gives back the same log |
| RaftLogs.RaftLog.Append | raftlog/raftlog.go:54-107 | Push, and the two keys it writes |
| RaftLogs.RaftLog.Remove | raftlog/raftlog.go:138-172 | Pop, and the key it deletes and the one it writes; the panic on an empty log |
| RaftLogs.RaftLog.Update | raftlog/raftlog.go:113-135 | Replace at a valid index, error past the end, and that a negative index corrupts the store |
| RaftLogs.RaftLog.Get | raftlog/raftlog.go:177-203 | An entry exactly for the indices of the log |
| Storage.LogStoredUnique | raftlog/raftlog.go:26-51 | The store determines the log |
| Storage.EntryKeyInjective | raftlog/raftlog.go:89-91 | Different indices have different keys |
| Storage.StatusWritesKeepLog | status/status.go:244-256 | Status writes leave the stored log alone |
| Storage.LogWritesKeepStatus | raftlog/raftlog.go:54-172 | Log writes leave the stored status alone |
| Decimal.RoundTrip | status/status.go:12-14 | Writing an integer in decimal and parsing it gives it back |
| Decimal.Digits | status/status.go:12-14 | It is plain decimal, digit by digit, with a minus sign in front of negative numbers |
| Statuses.Status.constructor | status/status.go:48-194 | Recovery gives back every persisted field and leaves the store as it is; on fresh storage it saves the defaults |
| Statuses.Status.SetPeerAddresses | status/status.go:312-350 | Peers persisted and both index maps rebuilt |
| Statuses.Status.SetClusterChange | status/status.go:387-412 | Both fields persisted under their own keys |
| Statuses.Status.SetCurrentTerm | status/status.go:244-255 | The term persisted |
| Statuses.Status.SetVotedFor | status/status.go:263-272 | The vote persisted |

## Reading the model

- A panic is a node with `halted` set; it does nothing more until it restarts from its storage. A
  handler that panics or never returns gives the list `[Crash]`. The rewind loop counts as never
  returning when it comes back to an entry it has seen: the next step depends on the entry alone.
- Log entries carry a node-local result. Logs are compared on term, kind and command (`Same`).
- JSON is a lossless encoding, undone in the `Payload` of an entry. Bytes that do not decode into
  a cluster record are ignored by the code and give the zero record; bytes that do not decode
  into a command make the state machine panic; a record read as a command is the zero command.
- One event is one atomic step with one reading of the clock, `now`, which is arbitrary. So is
  the moment a timer fires and how recently a leader was heard from.
- Packets carry history fields (`view`, `routine`, `held`, `from`) that no handler reads. Answers
  travel paired with their request. They may reach a node that has restarted since, which the
  code's connections would not allow: more runs than the code has, so the theorems cover those.

## Where code and documentation disagree

The model follows the code.

- `ActionRemoveServer` is said to do nothing for an address that is not a peer
  (iface/iface.go:382-385, rulehandler/leader.go:177-179); the executor panics
  (executor/executor.go:640-650).
- A removal is recorded under the kind of an addition (rulehandler/leader.go:204).
- `LeaderLastHeard` is documented as starting one month ago (iface/iface.go:132-134) and starts
  one year ago (status/status.go:190).
- A new leader starts every match index at 0 (rulehandler/leader.go:38-41) though the interface
  says the unknown value is -1 (iface/iface.go:120-122). Entry 0 so counts as held by everybody, and
  a commit of it alone is exempt from what is said of commits.
- A follower's vote is kept per stretch as follower, not per term (rulehandler/follower.go:14-17),
  and grants are counted without comparing terms (rulehandler/candidate.go:182-191). Election
  Safety and Log Matching therefore carry hypotheses over the run's history.
- Any success reply counts for the leader's last index at that time (rulehandler/leader.go:371-375),
  also one to an opening heartbeat that carried nothing. Leader Completeness therefore asks that
  a winning set of members does hold what is committed.
- A leader refuses a change while "previous change in progress" (rulehandler/leader.go:109-114),
  going by the index of the latest change in its status (iface/iface.go:124-126), which it does not
  set when it appends a change itself. So its own change never counts as in progress.

## Left out

- HTTP transport, goroutines, channels and the "Bad Request" answer to a malformed body: packets and atomic delivery stand for them.
- The web monitor: it writes status fields directly, and no invariant survives that.
- The disk engine, lock files and transactions: the store is a map; storage errors, and a crash between two durable writes of one event, are not modelled.
- Unconditional Leader Completeness and State Machine Safety: the acknowledgement and voting rules of the code do not secure them, as the concrete runs show. What is proved names its hypotheses; runs show that one vote a term, clean counts, a winning set behind each commit and no stale truncation are each needed.
- Elections and commits across membership changes: the run-level safety theorems are for a fixed cluster, since winning sets of neighbouring configurations need not meet.
- Integer width and the floating-point minimum and ceiling (rulehandler/follower.go:173-177, rulehandler/leader.go:380): integers are unbounded, so values beyond 2^53 are not rounded.
- A command that is the JSON value `null`: it fits no case of `Payload` (it decodes as a command and as a record, each the zero one, but is neither).
- Go slice aliasing from `append(status.PeerAddresses(), ...)`: lists are values.
- Status.SetNodeAddress: nothing in the modelled code calls it.
- Rule handlers that only branch: they are functions, as are the dispatch tables of the executor, which add no state.
- Logging, flag parsing and the random length of timeouts.
