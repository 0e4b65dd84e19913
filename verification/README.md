# Verification of the ddbr-server replication core

This project models the replicated key-value server `ddbr-server` in Dafny and
proves what its elections, its log replication and its key-value state machine
guarantee, and exactly where a guarantee stops.  The server follows the Raft
paper (Ongaro and Ousterhout, extended version: sections 5.2, 5.3, 5.4.1 and
5.4.2) with its own arithmetic, and the model keeps that arithmetic.

`dafny verify dfyconfig.toml` checks the whole project.

## How it is laid out

| module | what it holds |
|---|---|
| `RaftTypes`, `Folding`, `Quorums` | records and requests, left folds, counting arguments for the two thresholds |
| `CommandCodec`, `KvStore` | the text form of commands, the key-value state machine, the reference map `Replay` |
| `RaftNode` | one node's `RaftStateMachine`: a class with its fields, each handler proved against a function on the value `Node` |
| `NodeLaws` | what each of these handlers does, spelled out on the node's fields: when a vote is granted, a request taken, a node steps down |
| `VoteProtocol`, `VoteSafety`, `VoteGaps`, `VoteProgress` | elections over N nodes as a state machine whose steps are the locked sections of the handlers; safety over every run; witness runs; that a majority wins and who can be elected |
| `FollowerLog`, `FollowerReplica`, `ServiceAppend` | the conflict-scanning append and the apply loop, a follower's whole life, and the second AppendEntries handler as reference |
| `LeaderState`, `Replication`, `LeaderStore` | the leader's `RaftState`, its Set, Get and Delete with the pre-commit round, and the refinement of a simple map |
| `Shipping`, `CommitRule` | what is sent to peers and how NextIndex moves, and the commit rule, over every life of the leader |
| `TailFold`, `Recovery`, `JoinSync`, `Agreement` | what a map lacks that performed only the end of a log; starts as master or not, join synchronisation, lives with any number of starts, and how live, rebuilt, joined and followed state agree |

Code that changes state step by step is a class or a method with loops; each is
proved equal to a function of its old state, and the properties are lemmas about
those functions.  JSON decoding (of commands and of shipped entries) is a
parameter, arbitrary in every theorem.  How the goroutines of a replication round
interleave and what the peers answer is a parameter too, a lost answer being absent.

In an election run every step is always allowed when its node's run loop is free:
time-outs fire whenever they like, messages are delayed at will, and a lost
message is a step never taken.  AppendEntries and heartbeat replies run on other
goroutines and may fall between any two locked sections of the vote handler.

## Main results

* **Elections.**  In every run, with the vote handler interrupted anywhere, no
  node votes for two candidates in one term, the vote counter is one plus the
  number of distinct peers whose grant was counted, and no two nodes reach the
  threshold in one term.
  A node's term can fall, and does so exactly when the handler adopts a term
  without looking again.  Leaders are elected in a run if and only if each
  BecomeLeaderEvent finds a candidate that has the votes; then at most one node
  leads a term.  A witness run has two leaders of term 2, one on its own vote alone.
  A candidate has won exactly with the votes of more than half of the nodes, a win is
  never forgotten, and from any state a node can be elected whose log is not behind
  that of a majority of free nodes of no larger term.
* **Quorums.**  Vote and acknowledgement quorums meet in every cluster size; two
  minimal acknowledgement quorums are forced to meet exactly when the size is odd.
* **Leader.**  Although committed entries are read at positions shifted by one,
  the leader's map is the fold of an ascending subsequence of its log that holds
  every acknowledged operation; while the process runs no acknowledged write is lost
  to an older one.  This holds for an elected node that joined by log synchronisation
  as well, whose store is ahead of its lastApplied.
* **Follower.**  Fed from the start of one append-only log it is always a prefix
  replica of it.  On any log, success means stored if and only if the request
  starts at index 0 or had nothing to append, and the entries it found and kept
  were the right ones: kept entries are judged by term alone and never repaired.
  The steady state of replication drops the new entry and answers success.
* **Acknowledgement.**  A write is with an acknowledgement quorum if and only if it
  was acknowledged and enough of the peers that answered success had a log that met
  the conditions above; with level peers none had.
* **Shipping and commit rule.**  In every life of the leader, restarts included,
  the suffix sent is exact in any interleaving of the round, a peer that answered
  success is sent the next entry alone, refusals are bounded,
  and the commit rule is conservative in count and term although it looks at the
  wrong entry's term.
* **Restart.**  With failed writes a start as master rebuilds the live map if and only
  if, key by key, nothing logged is left unapplied that would show.  A start as
  non-master replays nothing.  An acknowledged write is then out of the live map until
  the next start as master or the next acknowledged write, and the first operation
  ever logged stays out until a start as master: the map of the promoted node is the
  fold of its log if and only if that operation leaves nothing or a later one is on
  its key.
* **Join and agreement.**  With acknowledged writes the live map, the rebuilt map and
  the map of a node that joins with an empty log are one fold of the operations
  written.  A node that joins with a log on disk performs only what the leader sends
  it; its map is that fold if and only if none of the operations on its disk would
  show.  A follower that takes a full request holds the fold up to the write before
  it: a request never carries a commit index that reaches its own last entry.

## Model

| member | source | states |
|---|---|---|
| CommandCodec.SplitInvertsJoin | ddbr-server/infra/state_machine.go:122 | splitting at colons is inverse to joining, and no piece holds a colon |
| CommandCodec.TextParsesIff | ddbr-server/infra/state_machine.go:121-141 | which texts are commands: set with exactly two fields, get and delete with at least one, the others ignored; nothing else |
| CommandCodec.JsonParsesIff | ddbr-server/infra/state_machine.go:113-120 | a text that starts with a brace is a command if and only if it decodes to one of the three kinds |
| CommandCodec.ErrorTexts | ddbr-server/infra/state_machine.go:117-139 | the text of each parse error, in which the apply loops look for the words of the duplicate error |
| CommandCodec.SetRoundTrip | ddbr-server/service/kv_impl.go:36 | a printed set parses back to the same key and value if and only if neither holds a colon; otherwise it is rejected as a malformed set |
| CommandCodec.DeleteRoundTrip | ddbr-server/service/kv_impl.go:189 | a printed delete parses to the part of the key before its first colon, hence to the key if and only if it holds none |
| KvStore.ApplyEntry | ddbr-server/infra/state_machine.go:104-170 | an entry takes effect if and only if its index is past the mark and it parses; otherwise map and mark stay; what ends an apply loop |
| KvStore.EffectOn | ddbr-server/infra/state_machine.go:54-73 | a command changes at most its own key: set binds it, delete unbinds it, get leaves it |
| KvStore.GoodPrefix | ddbr-server/infra/raft_state_machine.go:953-964 | the longest run of commands the apply loops get past |
| KvStore.AppliedSet | ddbr-server/infra/state_machine.go:107-141 | a printed set is rejected, changing neither map nor mark, exactly for a colon in a field or a passed index |
| KvStore.AppliedGet | ddbr-server/infra/state_machine.go:150-156 | an applied get answers with what the key holds, or (nil), and leaves the map |
| KvStore.UnparsedCanPass | ddbr-server/infra/raft_state.go:771 | a malformed set whose text holds the words of the duplicate error is skipped instead of stopping the loop |
| KvStore.ReplayConcat | ddbr-server/infra/state_machine.go:143-168 | replaying two stretches of a log in turn is replaying their concatenation |
| KvStore.StateMachine.constructor | ddbr-server/infra/state_machine.go:43-51 | an empty map with mark 0 |
| KvStore.StateMachine.Set | ddbr-server/infra/state_machine.go:54-58 | binds the key, leaves the mark |
| KvStore.StateMachine.Get | ddbr-server/infra/state_machine.go:61-66 | the bound value, and whether there is one |
| KvStore.StateMachine.Delete | ddbr-server/infra/state_machine.go:69-73 | unbinds the key, leaves the mark |
| KvStore.StateMachine.ApplyLog | ddbr-server/infra/state_machine.go:104-170 | the in-place form computes ApplyEntry: refusal, parse error or effect, with the answer text |
| RaftNode.RaftStateMachine.constructor | ddbr-server/infra/raft_state_machine.go:117-145 | a follower of term 0, master or not as configured, that voted for nobody and has an empty log |
| RaftNode.RaftStateMachine.HandleElectionTimeout | ddbr-server/infra/raft_state_machine.go:355-467 | a non-leader becomes candidate of the next term with its own vote; the request carries its last entry; alone it wins at once |
| RaftNode.RaftStateMachine.HandleRequestVote | ddbr-server/infra/raft_state_machine.go:222-305 | the uninterrupted vote handler, state and reply |
| RaftNode.RaftStateMachine.HandleRequestVoteResponse | ddbr-server/infra/raft_state_machine.go:308-340 | counts a vote only for the current candidacy, and queues the win from the threshold on |
| RaftNode.RaftStateMachine.HandleBecomeLeader | ddbr-server/infra/raft_state_machine.go:470-504 | only a candidate becomes leader, whatever its votes, and resets nextIndex and matchIndex |
| RaftNode.ResetIs | ddbr-server/infra/raft_state_machine.go:497-504 | the reset reaches every peer and no other key |
| RaftNode.RaftStateMachine.HandleHeartbeat | ddbr-server/infra/raft_state_machine.go:343-352 | any role becomes follower, the term stays |
| RaftNode.RaftStateMachine.HandleHeartbeatReply | ddbr-server/infra/raft_state_machine.go:660-675 | steps down only for a term above both the sent and the current one |
| RaftNode.Kept | ddbr-server/infra/raft_state_machine.go:850-875 | what survives the conflict scan: everything, or what precedes the first differing term |
| RaftNode.RaftStateMachine.AppendEntries | ddbr-server/infra/raft_state_machine.go:755-908 | state and reply of the follower handler, with the term reported before stepping down and no commit update for empty requests |
| RaftNode.RaftStateMachine.DecodeEntries | ddbr-server/infra/raft_state_machine.go:822-848 | builds exactly those entries |
| RaftNode.RaftStateMachine.FindConflict | ddbr-server/infra/raft_state_machine.go:850-867 | the first new entry whose term differs from the stored one, or -1 |
| RaftNode.RaftStateMachine.StoreEntries | ddbr-server/infra/raft_state_machine.go:869-888 | truncation and append with the offset `len(logs)` |
| RaftNode.RaftStateMachine.ApplyCommittedLogs | ddbr-server/infra/raft_state_machine.go:932-975 | the apply loop on node and store, with the error that stopped it |
| NodeLaws.FirstVote | ddbr-server/infra/raft_state_machine.go:117-145 | a new node is a follower of term 0 with an empty log and its vote still to give |
| NodeLaws.CampaignStarts | ddbr-server/infra/raft_state_machine.go:355-400 | a campaign is for the next term, starts with the node's own vote and needs more than half of the node and its peers; log, indices and master flag stay |
| NodeLaws.CountedIff | ddbr-server/infra/raft_state_machine.go:315-323 | a reply counts, once, if and only if it grants and the node is still the candidate of that term; nothing else changes |
| NodeLaws.VoteGrantedIff | ddbr-server/infra/raft_state_machine.go:235-290 | a vote is granted if and only if the request is not stale, the node has not voted for another candidate in that term, and the candidate's last entry has a larger term or the same term and no smaller an index; the reply carries the larger of the two terms |
| NodeLaws.VoteLeaves | ddbr-server/infra/raft_state_machine.go:251-288 | what answering leaves: the larger term, the vote that was given or none in a new term, follower if the term is new, everything else as it was |
| NodeLaws.MajorityWins | ddbr-server/infra/raft_state_machine.go:327-328 | the threshold is met by a strict majority of the nodes and by nothing less |
| NodeLaws.LeadsIff | ddbr-server/infra/raft_state_machine.go:470-490 | only a candidate becomes leader, as master and in its term, keeping vote and log |
| NodeLaws.StepsDownIff | ddbr-server/infra/raft_state_machine.go:660-675 | a heartbeat reply of a term above the sent and the current one makes any node a follower of that term without vote or master flag, keeping its log and indices; any other changes nothing |
| NodeLaws.RebuiltIs | ddbr-server/infra/raft_state_machine.go:822-848 | a shipped string is stored as the command it decodes to, or as it is, under the request's term and the next number |
| NodeLaws.AppendStepsDown | ddbr-server/infra/raft_state_machine.go:778-785 | a request of a higher term, taken or not, does the same; no other request touches these fields |
| NodeLaws.CommitFollows | ddbr-server/infra/raft_state_machine.go:787-897 | the commit index moves only with a request whose entries were taken, only upwards, to the leader's but not past the end of the log; one without entries never moves it |
| Quorums.QuorumsMeet | ddbr-server/infra/raft_state_machine.go:327-328 | a vote quorum shares a node with every other vote quorum and every acknowledgement quorum |
| Quorums.AckQuorumsMeet | ddbr-server/infra/replication.go:39-41 | two minimal acknowledgement quorums always share a node exactly when the cluster size is odd |
| VoteProtocol.Keeps | ddbr-server/infra/raft_state_machine.go:222-305 | the local obligations of a step at one node suffice for the invariant of the whole cluster |
| VoteSafety.TimeoutKeeps | ddbr-server/infra/raft_state_machine.go:355-467 | starting a campaign keeps the invariant |
| VoteSafety.DeliverKeeps | ddbr-server/infra/raft_state_machine.go:232-255 | the first locked section keeps it |
| VoteSafety.AdoptKeeps | ddbr-server/infra/raft_state_machine.go:256-261 | so does adopting the request's term, even when that lowers the term |
| VoteSafety.CheckKeeps | ddbr-server/infra/raft_state_machine.go:262-284 | so does the section that reads votedFor and compares logs |
| VoteSafety.GrantKeeps | ddbr-server/infra/raft_state_machine.go:285-288 | so does recording the vote after yet another gap |
| VoteSafety.CountKeeps | ddbr-server/infra/raft_state_machine.go:308-340 | so does counting a reply; each peer is counted at most once a campaign |
| VoteSafety.HandleWinKeeps | ddbr-server/infra/raft_state_machine.go:470-504 | so does becoming leader |
| VoteSafety.OutsideKeeps | ddbr-server/infra/raft_state_machine.go:660-675 | so does whatever other goroutines may do to a node |
| VoteSafety.CallsAreOutside | ddbr-server/infra/raft_state_machine.go:771-792 | AppendEntries, heartbeat replies and heartbeat events only raise the term, clear the vote with it, and make nobody candidate or leader |
| VoteSafety.RunKeeps | ddbr-server/infra/raft_state_machine.go:222-340 | the invariant holds after every run |
| VoteSafety.VoteOnce | ddbr-server/infra/raft_state_machine.go:251-290 | in every run no node votes for two candidates in a term, and its highest voted term is at most its current term |
| VoteSafety.CounterIsExact | ddbr-server/infra/raft_state_machine.go:323 | a candidate's votesReceived is one plus the number of distinct peers whose grant of the current term it has counted; grants under way are not in it |
| VoteSafety.ElectionSafety | ddbr-server/infra/raft_state_machine.go:327-336 | in every run no two distinct nodes reach the threshold in one term |
| VoteSafety.LeadersElectedIff | ddbr-server/infra/raft_state_machine.go:470-487 | throughout a run every leader had won its term if and only if each BecomeLeaderEvent found its candidate with the votes |
| VoteSafety.LeaderUnique | ddbr-server/infra/raft_state_machine.go:470-487 | in every such run at most one node ever leads a term |
| VoteSafety.TimelyIsEnough | ddbr-server/infra/raft_state_machine.go:334 | handling each BecomeLeaderEvent before its node's next term change is enough |
| VoteSafety.WinnerIsUpToDate | ddbr-server/infra/raft_state_machine.go:279-281 | a winner asked with a last entry at least as up to date as that of every voter of a majority when it compared |
| VoteSafety.AckSetMeetsWinner | ddbr-server/infra/replication.go:39-41 | so some member of every acknowledgement set compared its log with the winner's and was not ahead |
| VoteProgress.MajorityWinsIff | ddbr-server/infra/raft_state_machine.go:323-336 | in every run a candidate's campaign has won if and only if the grants it counted and its own vote are more than half of the nodes |
| VoteProgress.WinIsQueued | ddbr-server/infra/raft_state_machine.go:330-336 | in every run a node still candidate of a campaign that won has the BecomeLeaderEvent of that term in its queue |
| VoteProgress.CallsAnyTime | ddbr-server/infra/raft_state_machine.go:653-675 | AppendEntries and heartbeat replies may come at any moment, inside the vote handler too, and change the called node alone; a heartbeat event waits for the run loop and makes any node a follower |
| VoteProgress.FreeNodesGoOn | ddbr-server/infra/raft_state_machine.go:150-220 | a node between two events may time out unless it leads, take any request or reply that has come, and handle a queued win, which uses the event up; a refusal counts nothing |
| VoteProgress.CanBeElected | ddbr-server/infra/raft_state_machine.go:222-490 | from any state of the cluster, a free node that is not leader can be elected to its next term when it and peers that are free, of no larger a term and with a last entry not ahead of its own are more than half; the run of steps is given, and its log stays |
| VoteGaps.SectionsMakeHandler | ddbr-server/infra/raft_state_machine.go:222-305 | the locked sections run back to back are the uninterrupted handler, and reply what it replies |
| VoteGaps.StepRisesIff | ddbr-server/infra/raft_state_machine.go:253-261 | a step lets no term fall if and only if it is not an adoption of a term below the current one |
| VoteGaps.TermsRiseIff | ddbr-server/infra/raft_state_machine.go:253-261 | the same for whole runs |
| VoteGaps.TermsNeverFall | ddbr-server/infra/raft_state_machine.go:222-305 | with vote handlers uninterrupted no term ever falls |
| VoteGaps.TermCanFall | ddbr-server/infra/raft_state_machine.go:255-257 | a run in which a node's term falls from 5 to 1 |
| VoteGaps.TwoLeaders | ddbr-server/infra/raft_state_machine.go:334 | a run of three nodes with two leaders of term 2, one of them on its own vote alone |
| FollowerLog.AcceptedWhen | ddbr-server/infra/raft_state_machine.go:771-816 | a request with entries is taken if and only if its term is not below the node's and the log holds an entry of the previous term at the previous index, or that index is 0; one without entries if and only if it is not stale; the reply tells the term from before, and a refusal leaves the log |
| FollowerLog.PrefixUntouched | ddbr-server/infra/raft_state_machine.go:850-888 | positions before the previous index survive every accepted request |
| FollowerLog.FullRequest | ddbr-server/infra/raft_state_machine.go:850-888 | from previous index 0 the log becomes the kept matching prefix and the remaining new entries, numbered by position |
| FollowerLog.RepeatIsIdle | ddbr-server/infra/raft_state_machine.go:850-888 | delivering any request again changes nothing and gives the same verdict |
| FollowerLog.StoredIff | ddbr-server/infra/raft_state_machine.go:850-888 | an accepted request leaves all its entries in place, number, term and command, if and only if it starts at index 0 or nothing of it had to be appended, and the surviving entries it overlaps were the right ones; on any log, gaps included |
| FollowerLog.NewestStoredIff | ddbr-server/infra/raft_state_machine.go:850-888 | the last entry shipped, the one a leader counts, is stored if and only if the offset fits and what survives in its place was right |
| FollowerLog.PlacedIff | ddbr-server/infra/raft_state_machine.go:850-888 | the condition of StoredIff for number and term alone |
| FollowerLog.SurvivorsStay | ddbr-server/infra/raft_state_machine.go:853-867 | entries the conflict scan keeps are never repaired, whatever their number and command |
| FollowerLog.SteadyStateStoresNothing | ddbr-server/infra/raft_state_machine.go:878-888 | entries that follow the whole log, no more than its length, are answered with success and dropped |
| FollowerLog.ApplyNew | ddbr-server/infra/raft_state_machine.go:944-974 | past the store's mark each entry is applied once, in order, to the end or the first one the loop cannot get past |
| FollowerLog.ApplyOld | ddbr-server/infra/state_machine.go:107-109 | entries the store has passed are skipped |
| FollowerLog.NeverFalls | ddbr-server/infra/raft_state_machine.go:944-974 | on any log, gaps and repeated numbers included, an apply pass takes neither lastApplied nor the store's mark back |
| FollowerLog.AppliesOnce | ddbr-server/infra/raft_state_machine.go:932-975 | one pass: where it stops and why, and that the map has run through exactly the entries between mark and lastApplied |
| FollowerLog.ApplyAgain | ddbr-server/infra/raft_state_machine.go:932-942 | a second pass changes nothing |
| FollowerReplica.HandlersRestand | ddbr-server/infra/raft_state_machine.go:222-504 | election handlers leave log, commit index and lastApplied alone |
| FollowerReplica.EventsReach | ddbr-server/infra/raft_state_machine.go:787-792 | a heartbeat in a follower's life is the handler's, and an election event reaches every standing and leaves log, indices and store |
| FollowerReplica.AppendKeepsMarks | ddbr-server/infra/raft_state_machine.go:787-792 | no request moves lastApplied or the commit index past the leader's; one without entries, a commit confirmation included, moves neither log nor commit index |
| FollowerReplica.ReactKeeps | ddbr-server/infra/raft_state_machine.go:755-975 | every request, apply pass or election event keeps a follower a prefix replica |
| FollowerReplica.AlwaysPrefixReplica | ddbr-server/infra/raft_state_machine.go:755-975 | over every life, requests in any order, repeated and restamped, from any store not ahead of the leader's log: the log is a command prefix of the leader's, the map has performed the commands from the store's mark up to lastApplied, lastApplied is at most the largest leader commit seen; from a store that was the replay up to its mark (FollowerReplica.EmptyStarts: an empty one) the map is the replay of the prefix |
| FollowerReplica.FollowersAgree | ddbr-server/infra/raft_state_machine.go:932-975 | two followers that applied equally far hold the same map |
| FollowerReplica.SuffixIsLost | ddbr-server/infra/raft_state_machine.go:878-888 | witness: the second entry shipped alone is acknowledged, committed and not stored |
| FollowerReplica.SuffixLeavesGap | ddbr-server/infra/raft_state_machine.go:878-888 | witness: the third entry lands in the second position |
| FollowerReplica.GapStays | ddbr-server/infra/raft_state_machine.go:853-888 | witness: shipping the whole log from its start at the same term is answered with success and leaves that gap |
| FollowerReplica.OldCommandStays | ddbr-server/infra/raft_state_machine.go:861 | witness: an entry of the request's term and number keeps its old command |
| ServiceAppend.AppendEntries | ddbr-server/service/append_entries.go:12-116 | state and reply of the second handler, apply errors swallowed |
| ServiceAppend.AcceptEntries | ddbr-server/service/append_entries.go:20-94 | its checks and the replaced log |
| ServiceAppend.AcceptedWhen | ddbr-server/service/append_entries.go:20-61 | this handler takes a request, with entries or without, if and only if it is not stale and its previous entry is in the log or before its start; the reply tells the larger of the two terms |
| ServiceAppend.UpdateLeaves | ddbr-server/service/append_entries.go:27-36 | a higher term is adopted and clears the vote, taken or not, and the master flag stays; a refusal or a heartbeat leaves the log |
| ServiceAppend.CommitFollows | ddbr-server/service/append_entries.go:96-112 | the commit index follows the leader's upwards to at most the last entry's index, heartbeats included, and then exactly what is pending is applied; otherwise nothing |
| ServiceAppend.SuccessStores | ddbr-server/service/append_entries.go:64-94 | there success always means stored, in place and with nothing after it |
| ServiceAppend.VerdictsAgreeIff | ddbr-server/service/append_entries.go:37-61 | the two handlers give the same verdict if and only if the request carries entries, is stale or passes the check skipped for heartbeats |
| ServiceAppend.HandlersAgreeIff | ddbr-server/service/append_entries.go:83-91 | from one log and term they agree on (index, term) up to the last shipped entry if and only if the request starts at 0 or had nothing to append, and the surviving entries it overlaps were numbered by position |
| ServiceAppend.LateRequestCuts | ddbr-server/service/append_entries.go:83-87 | a late shorter request truncates the reference log and not the other |
| LeaderState.AppendsAtEnd | ddbr-server/infra/raft_state.go:805-843 | on a log numbered by position the next index is appended and nothing else moves |
| LeaderState.AppendLogIs | ddbr-server/infra/raft_state.go:817-843 | on any log: an index not held is appended, one held with the same term changes nothing, one held with another term replaces that entry and everything after it |
| LeaderState.WithIndexIs | ddbr-server/infra/raft_state.go:814-821 | an index below 1 is replaced by the one after the last entry's, 1 on an empty log |
| LeaderState.CommittableIff | ddbr-server/infra/raft_state.go:717-728 | an index short of the last position is committable if and only if more than half of the cluster, the leader not counted, is recorded at exactly it and the entry after it is of the current term |
| LeaderState.PendingIs | ddbr-server/infra/raft_state.go:751-754 | the entries collected are those at slice positions past lastApplied and not past the commit index |
| LeaderState.RaftState.constructor | ddbr-server/infra/raft_state.go:54-83 | the initial leader record |
| LeaderState.RaftState.GetLastLogIndex | ddbr-server/infra/raft_state.go:791-802 | the last entry's index, 0 for an empty log |
| LeaderState.RaftState.Append | ddbr-server/infra/raft_state.go:805-843 | corrects an index below 1, then appends, truncates at a differing term or ignores a duplicate |
| LeaderState.RaftState.UpdateCommitIndex | ddbr-server/infra/raft_state.go:690-738 | never lowers the commit index; the result is the old one or the highest committable one |
| LeaderState.RaftState.CountMatches | ddbr-server/infra/raft_state.go:706-714 | each positive index's number of peers matched exactly there |
| LeaderState.RaftState.ApplyCommittedLogs | ddbr-server/infra/raft_state.go:741-788 | applies the entries at the shifted positions and stops at the first real error |
| LeaderState.RaftState.CollectPending | ddbr-server/infra/raft_state.go:751-754 | which positions those are |
| Replication.KvServer.Set | ddbr-server/service/kv_impl.go:14-89 | state and answer of a set, however its round interleaves: refusal, logged but not acknowledged, or acknowledged with its direct effect |
| Replication.KvServer.Delete | ddbr-server/service/kv_impl.go:168-242 | the same for a delete |
| Replication.KvServer.Get | ddbr-server/service/kv_impl.go:92-165 | the local value on the master, a refusal elsewhere |
| Replication.KvServer.ReplicateLogs | ddbr-server/infra/replication.go:16-84 | commits at once without peers, otherwise when the count reaches the threshold |
| Replication.AnyOrderIsOne | ddbr-server/infra/replication.go:48-58 | however sends and answers interleave in a round, the leader ends as if all requests had gone out first |
| Replication.RequestAmid | ddbr-server/infra/replication.go:89-160 | and a request that goes out in between differs from the sequential one in its term only, the leader's at that moment |
| Replication.ContactAllIs | ddbr-server/infra/replication.go:92-106 | contacting peers gives each one without a record its starting next index and match index 0, in any order, and changes nothing else |
| Replication.KvServer.PreCommit | ddbr-server/infra/replication.go:39-58 | the round with its sends and answers in any order: the leader's record afterwards, every request as built at its moment, and one plus the number of successful answers as the count |
| Replication.KvServer.BuildRequest | ddbr-server/infra/replication.go:89-160 | the request to a peer, and the indices recorded for a new one |
| Replication.KvServer.EntriesToSend | ddbr-server/infra/replication.go:113-123 | the entries between two indices, by position |
| Replication.KvServer.HandleAnswer | ddbr-server/infra/replication.go:185-214 | success moves both indices past the new entry, a higher term steps down, any other refusal backs off |
| Replication.KvServer.CommitLog | ddbr-server/infra/replication.go:218-247 | the commit index is set first, an apply error then yields -1 |
| LeaderStore.ApplyAllResult | ddbr-server/infra/raft_state.go:767-785 | consecutive entries past the mark are performed up to the first one the loop cannot get past |
| LeaderStore.SkipPassed | ddbr-server/infra/raft_state.go:771-776 | entries the store has passed, as after a log synchronisation, are skipped and lastApplied moves over them |
| LeaderStore.CommitResult | ddbr-server/infra/replication.go:218-247 | a commit sets the commit index to the log's end, runs over what is reached up to the first stopping entry, answers -1 exactly if there was one, and changes nothing else |
| LeaderStore.WriteResult | ddbr-server/service/kv_impl.go:25-88 | a write is acknowledged if and only if enough peers answered and the loop gets past every entry reached; the exact log, lastApplied and map after it |
| LeaderStore.BlockedForever | ddbr-server/infra/raft_state.go:777-779 | with an entry the loop cannot get past next in line, no later write is ever acknowledged and the map never changes |
| LeaderStore.UnparsableWrite | ddbr-server/infra/raft_state.go:752-753 | such a write is acknowledged or blocks the leader for good, depending on whether lastApplied is the log's length or one less |
| LeaderStore.ServeAnswers | ddbr-server/service/kv_impl.go:25-88 | colon-free writes are acknowledged exactly when the quorum answers, and then lastApplied is the log's length or one less |
| LeaderStore.RunRefines | ddbr-server/service/kv_impl.go:14-242 | every serial mix of calls keeps the map the fold of an ascending subsequence of the log that holds every acknowledged operation, from any state that refines one, a store ahead of lastApplied included |
| LeaderStore.FoldReads | ddbr-server/infra/state_machine.go:53-73 | a key reads as the last applied operation on it left it |
| LeaderStore.LeaderRefinesMap | ddbr-server/service/kv_impl.go:14-242 | from a fresh leader: the refinement, what every key reads, and that no operation older than an acknowledged one is read |
| LeaderStore.AcknowledgedIsKept | ddbr-server/service/kv_impl.go:67-88 | whatever is called before and after an acknowledged write, its key reads as left by it or by a later logged write |
| Shipping.LifeNext | ddbr-server/infra/replication.go:89-105 | in every life, restarts included, NextIndex is at least 1 and at most one past the log |
| Shipping.SuffixIsExact | ddbr-server/infra/replication.go:110-160 | in every life and every interleaving of the round each peer is sent exactly the log from its next index through the new entry, with the term stored before it; only the request's own term may have risen during the round |
| Shipping.ShipsBehind | ddbr-server/infra/replication.go:137 | the commit index a request carries always stops short of its entries' end |
| Shipping.ShippedRebuild | ddbr-server/infra/replication.go:315-323 | what the receiver rebuilds from the shipped strings: the leader's entries with their numbers and the leader's current term, and with their commands if and only if the decoder leaves those as they are |
| Shipping.SuccessAdvances | ddbr-server/infra/replication.go:186-190 | a peer that answers success, whatever others answer, is recorded to match the new entry and to be sent next what follows it |
| Shipping.NextIsAlone | ddbr-server/infra/replication.go:110-134 | after any life, a peer that answered success to one write is sent the next one alone, after the entry it answered for and with that entry's term |
| Shipping.FirstContactIsAlone | ddbr-server/infra/replication.go:95-102 | a peer without record is sent the newest entry alone, whatever it holds |
| Shipping.RoundTerm | ddbr-server/infra/replication.go:200-206 | a round raises the leader's term if and only if some refusal carries a higher one, to the highest of them, and then clears its vote and ends its leadership |
| Shipping.WhyRefused | ddbr-server/infra/raft_state_machine.go:771-816 | a refusal carries a higher term or is about a previous entry, so previous index 0 is refused for its term only |
| Shipping.RefusalBacksOff | ddbr-server/infra/replication.go:207-212 | a refusal without a higher term takes NextIndex back by one, down to 1, and leaves MatchIndex |
| Shipping.OthersLeaveNext | ddbr-server/infra/replication.go:186-212 | what other peers answer changes nothing that is recorded of a peer |
| Shipping.BackOffTerminates | ddbr-server/infra/replication.go:198-214 | after every life, with the leader's term unchanged a peer, whatever its states, refuses at most NextIndex-1 rounds in a row |
| Shipping.BackedOffCatchesUp | ddbr-server/infra/replication.go:113-134 | a peer backed off to 1 takes the whole log and ends with the leader's term in every position; it holds the leader's entries there if and only if its surviving entries were the right ones |
| Shipping.AcknowledgedIff | ddbr-server/infra/replication.go:39-72 | a round counts as replicated if and only if the leader and the distinct peers that answered success are more than half as many as the peers |
| Shipping.NextWriteIsLost | ddbr-server/infra/replication.go:188-189 | once a peer is level, the next write's request is answered with success and not stored |
| Shipping.ReplicatedIff | ddbr-server/infra/replication.go:39-80 | what an acknowledgement is worth: after any life, with answers given by the follower's handler, the new entry is with an acknowledgement quorum if and only if the write was acknowledged and enough of the peers that answered success had a log that met the offset and survivor conditions; those peers are exactly the ones that hold it |
| Shipping.LevelPeersHoldNothing | ddbr-server/infra/raft_state_machine.go:878-888 | where every peer that answered success was level with what it was shipped after, none of them holds the new entry |
| CommitRule.CommittableIsHeld | ddbr-server/infra/raft_state.go:722-728 | an index the rule may commit is held by a majority as the paper counts |
| CommitRule.OneMajority | ddbr-server/infra/raft_state.go:710-725 | two indices cannot both be matched exactly by a majority |
| CommitRule.FewPeersNeverCommit | ddbr-server/infra/raft_state.go:717-718 | with fewer than two peers the rule commits nothing |
| CommitRule.LevelPeersCommitNothing | ddbr-server/infra/raft_state.go:722 | with every peer level with the log it commits nothing either |
| CommitRule.RuleIsConservative | ddbr-server/infra/raft_state.go:690-738 | over every life of the leader: a committable index is unique, held by a majority, not the last, and of the current term on a leader that has not stepped down |
| CommitRule.TermRuleHolds | ddbr-server/infra/raft_state.go:722-725 | section 5.4.2 in every life, arbitrary answers and restarts included: where the rule acts, an index it may commit holds an entry of the current term, although it reads the following entry's |
| Recovery.RecoverFromStorage | ddbr-server/infra/init_manager.go:149-208 | what a state file makes of the leader's record and map |
| Recovery.RecoverLeaves | ddbr-server/infra/init_manager.go:157-176 | without a file nothing changes; a file gives term, vote and log to any node, and a node that is not master, or a file without entries, nothing else |
| Recovery.ReplaySkips | ddbr-server/infra/init_manager.go:185 | entries up to lastApplied are passed over |
| Recovery.RestartReplaysLog | ddbr-server/infra/init_manager.go:174-204 | a restarted master holds exactly the replay of its log |
| Recovery.RestartKeepsLog | ddbr-server/infra/init_manager.go:174-176 | master or not, log, term, vote and peers survive; what was known of the peers does not |
| Recovery.WriteKeepsWhole | ddbr-server/service/kv_impl.go:35-88 | an acknowledged colon-free write keeps the map the replay of the whole log and performs exactly the operation |
| Recovery.RestartPreserves | ddbr-server/infra/init_manager.go:149-239 | through any number of restarts with acknowledged writes between, the map is the fold of the operations, and one more restart rebuilds it |
| Recovery.RestartAgreesIff | ddbr-server/infra/init_manager.go:183-195 | restarting rebuilds the live map if and only if, key by key, the last applied operation left what the last logged one leaves |
| Recovery.LifeRestartIff | ddbr-server/infra/init_manager.go:179-195 | and so after every life with colon-free writes: failed writes, changes of the master flag, and starts as master or not |
| Recovery.RestartAfterWriteIff | ddbr-server/service/kv_impl.go:76-85 | after acknowledged writes and one more, exactly if that one was acknowledged or would have changed nothing |
| Recovery.LifeRefines | ddbr-server/infra/init_manager.go:149-239 | the leader's refinement of a simple map is kept through every life: a start as master applies the whole log, any other start nothing of it |
| Recovery.AcknowledgedSurvives | ddbr-server/infra/init_manager.go:179-195 | after any later calls and starts an acknowledged write is in the live map if and only if it is held: a start as non-master lets it go, the next start as master or, unless it was the first operation logged, the next acknowledged write brings it back; its key then reads as left by it or by a later logged write, and otherwise as left by nothing or by a later one |
| Recovery.MasterHolds | ddbr-server/infra/init_manager.go:179-195 | with starts as master only, every acknowledged write is held for good |
| Recovery.FirstOperationLost | ddbr-server/infra/raft_state.go:752-753 | a node started as non-master on a non-empty log and promoted: its first acknowledged write brings every logged operation into the map but the first, so the map is the fold of the log if and only if that one leaves nothing or a later one is on its key |
| Recovery.FirstWriteIsLost | ddbr-server/infra/init_manager.go:179 | witness: an acknowledged set is gone from the master's map after such a start and another acknowledged write |
| TailFold.DropIff | ddbr-server/infra/state_machine.go:53-73 | performing only the operations past the first k gives the map of all of them if and only if each of those k leaves nothing or has a later operation on its key |
| Recovery.LifeCommits | ddbr-server/infra/replication.go:224-227 | the commit index never passes the log, in any life |
| Recovery.LifeLogGrows | ddbr-server/infra/raft_state.go:805-843 | the leader's log is append-only, restarts included |
| JoinSync.SyncLogs | ddbr-server/service/vote_service.go:49-87 | the leader answers with the entries past the asked index, others refuse |
| JoinSync.PastIsSuffix | ddbr-server/service/vote_service.go:69-79 | on a log numbered by position these are the suffix |
| JoinSync.RefusedStays | ddbr-server/service/vote_service.go:55-61 | a node that is not master refuses, and a refused joiner, or one that is master itself, stays as it was |
| JoinSync.SyncLogsWithLeader | ddbr-server/infra/log_service.go:98-140 | what a reply makes of the joiner's log, term, vote and map |
| JoinSync.ExchangeLeaves | ddbr-server/infra/log_service.go:98-140 | no exchange touches indices, peers or flags |
| JoinSync.ExchangeCopiesLog | ddbr-server/infra/log_service.go:135-140 | one exchange gives the joiner the leader's log if and only if its own was a prefix of it |
| JoinSync.JoinAgrees | ddbr-server/infra/log_service.go:14-140 | then, whatever the joiner's map, exactly the missing commands are performed on it; its term is the larger of its own and the last received entry's, and a second exchange changes nothing |
| JoinSync.RejoinReplays | ddbr-server/infra/init_manager.go:256-283 | a node that starts as non-master with the first entries of the leader's log on disk and joins has the leader's log and the replay of the other entries alone |
| JoinSync.JoinAgreesIff | ddbr-server/infra/init_manager.go:179 | its map is the leader's replay if and only if no operation on its disk would show; so always if it joins with an empty log |
| JoinSync.RejoinsEmpty | ddbr-server/infra/log_service.go:121-140 | with the leader's whole log on disk it has that log and an empty map |
| JoinSync.JoinedLeaderRefines | ddbr-server/infra/raft_state_machine.go:490 | once such a node is the master it refines a simple map through every life, from the operations past its disk log on, although its store is ahead of lastApplied |
| JoinSync.ApplyEachMark | ddbr-server/infra/log_service.go:128-133 | the joiner's map is already the replay of the entries up to its mark, the ones past it having failed to parse |
| Agreement.RequestsAreCuts | ddbr-server/infra/replication.go:110-160 | every request built at next index 1, at any point of a life, is a cut from the start of the leader's later log whose commit index stops short of the cut |
| Agreement.JoinedFollows | ddbr-server/infra/init_manager.go:256-283 | whatever a node that joined lives through as a follower, its map is the replay from the end of its disk log on, or from the start where the exchange applied nothing, up to what it applied |
| Agreement.JoinedStartsIff | ddbr-server/infra/init_manager.go:274-283 | it starts its life as a follower with the replay up to its mark if and only if the exchange brought nothing or no operation on its disk would show |
| Agreement.JoinedFollowerIff | ddbr-server/infra/init_manager.go:256-283 | against the leader's later log its map is the fold of the operations it has come to if and only if none it skipped would show |
| Agreement.CatchesUp | ddbr-server/infra/raft_state_machine.go:755-975 | whatever a follower lived through, one accepted full request and one apply pass bring lastApplied to the request's commit index, with every command from its store's first mark up to there performed |
| Agreement.LeaderRestartAndJoinerAgree | ddbr-server/infra/init_manager.go:149-283 | live map and rebuilt map are the fold of the operations written; a node joining with the first k of them on disk gets the log and the fold of the others, the same map if and only if none of those k would show |
| Agreement.FollowerAgrees | ddbr-server/infra/replication.go:137 | after accepting the request the leader builds for its next write at next index 1 and one apply pass, the follower's map is the fold of the operations written before that write, and lastApplied is one short of the entries |

## Left out

- Integer width: terms, indices and counters are unbounded integers, the code's are 64-bit and wrap.
- JSON: decoding of commands, shipped entries and the state file is a parameter or the identity; encoding is not modelled.
- Text encoding: strings are sequences of characters, the code's are bytes.
- Error texts: the index printed after the words of the duplicate error is dropped.
- Transport: clients, connection errors, the thrift layer and the gateway; a failed call is an answer that never arrives.
- Time: timers, random time-outs and the half-time-out guard of BeginVote; a time-out is always enabled, and so is a heartbeat event, which over-approximates the event queue.
- The event queue's capacity and the waiting it can cause.
- Membership: peers are fixed, distinct and without the node itself; heartbeat peer lists, JoinCluster and updateClusterInfo are not modelled. Election peers are named by node identifier instead of address.
- Loss of election state: RaftStateMachine never reloads its term or vote, and the model lets no node lose them.
- The older election code of RaftState (BeginVote, its heartbeat loop, ExpiredTimer), which RaftStateMachine supersedes.
- Concurrent writes on the leader: Set and Delete are serial. Two concurrent calls can pick the same index, and AppendLog then ignores the second.
- A log synchronisation that overlaps the follower's life: in FollowerReplica it comes before the first request, or not at all.
- Replication.KvServer.PreCommit: a request that goes out, or an answer that arrives, after the round timed out is not modelled; within the round any order is.
- Commit confirmations: they carry no entries, so the follower returns before updating its commit index; they are the empty requests of the follower model and change no log.
- The fields PreCommitted, IsRead and LeaderId, log messages and response texts other than the state machine's answers.
- RaftNode.RaftStateMachine.AppendEntries: a request with entries needs a previous index of at least 0; on a smaller one, which no sender in the repository uses, the code indexes its log out of range.
- VoteSafety.WinnerIsUpToDate: speaks of the voter's log when the two were compared; an AppendEntries call in the gap before the vote is recorded may lengthen it.
- Leader completeness across elections: the leader's log (RaftState) and the log voters compare (RaftStateMachine) are two logs in the code, so the theorem does not apply to it.
- LeaderState.RaftState.UpdateCommitIndex: is modelled although nothing in the repository calls it.
- Replication.KvServer.Delete: omits the read-back after the delete, which is only logged.
- JoinSync.SyncLogsWithLeader: starts where the reply is in; finding the leader's address and persisting afterwards are left out.
- Switching of the master flag by elections: `configs.IsMaster` is a field of the leader that calls may change at any time.
