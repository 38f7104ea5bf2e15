# Verification model of miniraft

miniraft is a Raft implementation in C++: `TRaft` elects leaders and replicates a log,
`TRequestProcessor` applies committed entries and answers clients, `TDiskState` keeps the log on
disk and `TMessageWriter`/`TMessageReader` carry messages over a connection. This project models
these parts in Dafny and proves what they are for.

## How the model is built

- **One server.** `Protocol.dfy` holds every handler of `TRaft` as a pure step function that returns
  the new server state and the messages sent. `Raft.dfy`, `VolatileState.dfy` and `LogState.dfy` are
  the imperative classes, with the loops, in-place updates and queues of the source; each method is
  proved to compute exactly its step function. `Commit.dfy` relates the sort-and-pick commit rule to
  the rule of the Raft paper, `Log.dfy` relates the follower's replace-or-append loop to its
  specification.
- **The cluster.** `Cluster.dfy` is a transition system. The network is a set of messages that only
  grows, so every message may be delivered any number of times, in any order, or never. Actions are:
  delivery, timeout, client command, consistent read, applying committed entries, and a restart that
  keeps only term, vote and log. `Run` is a total function over any sequence of actions; an action
  that is not possible changes nothing.
- **The invariant.** `History.dfy` adds what the proof remembers: who won which term with which
  votes and which log, who voted with which log, who acknowledged how much. `Stable`, `HistorySteps`,
  `Preserve`, `PreserveLeader` and `PreserveElection` prove that every action extends a history that
  explains the cluster. Because a leader commits with n - n/2 servers, for even n only half of the
  cluster, two commit quorums can be disjoint (`Commit.CommitQuorumsMissIff`); the proof rests on
  commit quorums meeting vote quorums instead.
- **Theorems over all runs.** `Safety.dfy`, `Origins.dfy` (where messages and counted votes come
  from), `Durable.dfy`, `Reads.dfy`, `Gate.dfy` and `Replicas.dfy`. Most relate two arbitrary servers
  at two arbitrary moments of a run.
- **Timers, answers, leaders.** `Deadlines.dfy` (what postpones an election), `Voting.dfy` (every request
  for a vote is answered), `Sending.dfy` (who is sent what, and when) and `Following.dfy` (whom a server
  takes for the leader) say what the handlers mean for those who depend on them.
- **Catch-up.** `CatchUp.dfy` proves that the request/reply loop between a leader and a follower ends,
  and bounds rejections and exchanges; `Replicas.dfy` shows that its premises hold in every reachable
  state.
- **Runs that exist.** `Elections.dfy`, `Exchanges.dfy`, `Copying.dfy` and `Progress.dfy` continue any
  run, with any vote quorum and nobody else acting, until a leader of that quorum has committed a
  given new command. They are driven by the servers' own timers, and no clock reading is below an
  earlier one (`Clocks.Steady`), as with the steady clock of `miniraft/timesource.h:14-15`. `ReadLimit.dfy`
  constructs runs in which a consistent read is answered, and, for five or more servers, one in
  which the answer is stale. `Acknowledged.dfy` follows what the processor keeps for its writers through
  a run and constructs, for three or more servers, a run in which a lost write is acknowledged.
- **The disk under a run.** `LogOps.dfy` and `Persisted.dfy` turn the log changes of a server in a run
  into operations on its disk and show when they are ones that the disk handles.
- **Requests.** `Routes.dfy` (cookie maps of forwarded commands), `Waiting.dfy` (queues and answers),
  `Kv.dfy` (`TKv` and its command bytes), `Listing.dfy` (what a client can tell from its answers) and the
  class in `Processor.dfy`.
- **Bytes.** `Disk.dfy`, `DiskRuns.dfy` and the classes in `DiskState.dfy` for the three files of
  `TDiskState`; `Framing.dfy` and the class in `Stream.dfy` for messages on a stream; `Wires.dfy` for
  the layout of the protocol messages; `Bytes.dfy` for little-endian fields.

Time points, the random part of an election deadline and the order of hash-map iteration are
parameters or left arbitrary. Server ids are positive, since 0 means "no vote" (`miniraft/state.h:7`,
`miniraft/raft.cpp:160`) and the host parser treats id 0 as an unset host (`miniraft/net/server.h:49-51`).
A server's peers are all the other servers (`Cluster.ValidConfig`).

## Where the code does less than it says

- A consistent read is documented as never stale (`miniraft/messages.h:99`). One reply confirms it,
  which is enough exactly in clusters of at most four servers: `ReadLimit.ReadsAreFreshIff`, with a
  stale run for every larger cluster. The gate compares two numbers and looks neither at the role nor
  at the term; `Gate.ReadSeesEverythingApplied` shows that it is right all the same when terms pass
  between question and answer.
- A write is answered once the entry at its index has been applied, whatever entry that is, and the
  queue of waiting requests is not cleared when leadership is lost (`miniraft/raft.cpp:585-586`,
  `miniraft/raft.cpp:648-661`). So a deposed leader may answer for a command that another leader has
  overwritten. What stands at the index is the client's command exactly when it has the term in which
  it was taken (`Acknowledged.SlotIsCommandIff`), and every acknowledged write is real exactly in
  clusters of at most two servers (`Acknowledged.WritesAreRealIff`); in every larger one a deposed
  leader that was asked for a single write answers it although it was overwritten.
- `ProcessWaiting` tests `back()` of a queue and then removes the front
  (`miniraft/raft.cpp:650-651`, `miniraft/raft.cpp:670-671`). With several waiting clients only the
  last one is answered, once for every queued request (`Waiting.EveryoneServedIff`). When the last
  waiting request is a write and others wait, its client is answered once and then the assertion about
  the kept answers fails (`Processor.RequestProcessor.DrainWaiting`). Testing only the last request is
  testing them all exactly when none waits for more than it does (`Waiting.LastReadyMeansAllIff`),
  which holds within one term but not when the log was cut in between (`Replicas.QueueLastIsLatestIff`).
- A command that came when no leader was known waits until one is (`miniraft/raft.cpp:540-542`). When the
  server itself wins, it knows no leader (`Following.LeaderNamesNobody`), so `CheckStateChange` leaves
  the command waiting for as long as it leads (`Processor.RequestProcessor.CheckStateChange`).
- The listing of `TKv` can be read back exactly when no key or value has a line feed and no separator
  begins in a key, not even one that ends in the space behind it (`Listing.ListingRoundTripIff`).
  Without the last condition two stores can have one listing (`Listing.AmbiguousListing`).
- `TDiskState::RemoveLast` leaves the cached last term as it was (`DiskRuns.RemovalLeavesTermIff`); the
  protocol removes only to append, so no vote request shows it (`Persisted.CachedTermRight`).
- `TDiskState::Append` on an empty log records offset 0 but writes wherever the file is positioned
  (`miniraft/persist.cpp:74-81`). After an entry was read or appended in the session a stale entry is
  found instead of the new one (`DiskRuns.AppendToEmptyIff`). A server that has committed anything never
  gets there again (`Persisted.DiskHoldsLog`); before that it can, in some run of every cluster of
  three or more servers, and in no run of a smaller one (`Persisted.DisksAreCarefulIff`).
- The follower's loop compares terms only, and a missing entry has term 0, so an entry of term 0 is
  skipped at the end of the log; `Log.LoopSafe` is the exact condition under which the loop is the
  paper's rule, and leaders never make such entries (`Replicas.EntryTermsPositive`).
- When the 32-bit cookie counter has wrapped to 0, the command carries cookie 1 but its client is
  recorded under 0 (`Routes.AnswerUndoesForwardIff`).
- Setting a key to an empty value deletes it, and sizes are cut to 16 bits
  (`Kv.CommandRoundTripIff` is the exact condition).

## Model

| member | source | states |
|---|---|---|
| Safety.StateMachineSafety | miniraft/raft.cpp:422-469 | State Machine Safety (section 5.4.3 of the Raft paper): in every run, at any two moments, any two servers hold the same entry at every index at or below both their commit indices |
| Safety.LeaderHasCommitted | miniraft/raft.cpp:152-180 | Leader Completeness (section 5.4) for every cluster size: whoever leads a later term has everything any server committed in an earlier term |
| Safety.ElectionSafety | miniraft/raft.cpp:422-469 | Election Safety (section 5.2): over a whole run no two servers lead the same term |
| Origins.CountedVotesAreReal | miniraft/raft.cpp:182-188 | every counted vote comes from another server that voted for this candidate in this very term, whatever terms it has moved on to since, and although Votes survives stepping down |
| Origins.GrantWasCast | miniraft/raft.cpp:158-178 | every granted vote in flight was cast: at some earlier moment its sender was in that term with its vote for the receiver |
| Safety.LogMatching | miniraft/raft.cpp:212-229 | Log Matching (section 5.3): logs with equal terms at an index agree on everything up to it, for any servers at any moments |
| Origins.RequestIsSlice | miniraft/raft.cpp:287-313 | every AppendEntries request in flight, even if its sender has since stepped down or restarted, is a slice of the log the sender had while it led the request's term, with the right PrevLogTerm, Nentries and clamped LeaderCommit |
| Origins.RequestHadLeader | miniraft/raft.cpp:287-313 | every request in flight was sent at some moment by the leader of its term |
| Safety.RequestIsLeaderSlice | miniraft/raft.cpp:287-313 | whenever the leader of a request's term is looked at from then on, the request is a slice of the log it has by then |
| Safety.LeaderAppendOnly | miniraft/raft.cpp:488-492 | during its term a leader's log only grows |
| Safety.LeaderViewSound | miniraft/raft.cpp:248-274 | in every reachable state 1 <= NextIndex <= LastLogIndex + 1 and MatchIndex <= LastLogIndex, a follower of the same term agrees with the leader up to MatchIndex, and one that has not reached the term has MatchIndex 0 |
| Safety.DeadlineIffNotLeader | miniraft/raft.cpp:349-360 | in every reachable state exactly the leaders have the Max deadline, so a server that steps down has a finite one |
| Safety.RunHistory | miniraft/raft.cpp:349-481 | every run has a history that explains each of its moments and only grows: the invariant behind the theorems, over all actions |
| PreserveElection.NextKeeps | miniraft/raft.cpp:349-481 | every single action keeps the invariant and only extends the history |
| PreserveElection.StartOk | miniraft/raft.cpp:137-150 | freshly constructed servers satisfy the invariant |
| Preserve.ObserveKeeps | miniraft/raft.cpp:349-361 | adopting a higher term keeps a server's part of the invariant |
| Completeness.LeaderCompleteness | miniraft/raft.cpp:422-441 | a prefix committed in one term is in the starting log of the winner of any later term |
| Completeness.CommitPrefixesAgree | miniraft/raft.cpp:71-89 | two committed prefixes never differ |
| Commit.CommitAdvanceIsPaperRule | miniraft/raft.cpp:71-89 | on ascending terms, sort, zero padding, position n/2 and the one term test give exactly the larger of the old CommitIndex and the largest index of the current term that n - n/2 servers hold |
| Commit.QuorumIndexIsLargest | miniraft/raft.cpp:71-83 | the index at position n/2 is held by a commit quorum and no larger one is |
| Commit.QuorumsMeet | miniraft/raft.cpp:137-145 | MinVotes servers and n - n/2 servers always share one, for odd and even n |
| Commit.VotesMeet | miniraft/raft.cpp:137-145 | two vote quorums always share a server |
| Commit.CommitQuorumsMissIff | miniraft/raft.cpp:82-87 | two commit quorums can be disjoint exactly in clusters of even size, so safety cannot rest on their meeting |
| Durable.CommittedNeverRemoved | miniraft/raft.cpp:223-232 | no server ever removes an entry that was at or below its CommitIndex, restarts included, and CommitIndex never exceeds the log although the follower takes an unclamped max |
| Durable.CommitIndexGrows | miniraft/raft.cpp:239-242 | without a restart a server's CommitIndex never decreases |
| Durable.VotesOncePerTerm | miniraft/raft.cpp:158-176 | over a whole run, restarts included, a server's term never decreases and a vote given in a term is never changed |
| Durable.AppliedExactly | miniraft/raft.cpp:631-646 | an application has received exactly the non-stub entries up to LastAppliedIndex, each once and in log order, and LastAppliedIndex <= CommitIndex <= LastLogIndex |
| Durable.ReplicasAgree | miniraft/raft.cpp:43-50 | the applications of any two servers at any two moments have received the same commands in the same order as far as both have got |
| Durable.StaleRequestChangesNothing | miniraft/raft.cpp:191-205 | an AppendEntries request of an earlier term changes nothing, the election deadline included, and is answered with a refusal |
| Deadlines.MessageMovesDeadline | miniraft/raft.cpp:349-361 | a request of a leader of no earlier term, a vote that is granted, and a later term when the deadline has passed or the server led, give a deadline a whole election timeout and at most the random part ahead, whatever it was before; no other message moves it |
| Deadlines.HeardMeansQuiet | miniraft/raft.cpp:239-245 | in every run in which no clock goes back, a server that got a request of no earlier term changes nothing at its own timeouts before an election timeout has passed since, so a live leader is not deposed by those it reaches |
| Deadlines.PostponedMeansQuiet | miniraft/raft.cpp:172-176 | the same after a granted vote or any other message that postpones the election of a follower |
| Deadlines.TimeoutStandsIff | miniraft/raft.cpp:422-437 | a timeout begins a new term exactly when the deadline has come, with the next deadline a whole timeout ahead; otherwise a follower does nothing and a candidate that has not won changes only its request timers |
| Deadlines.StandingForgets | miniraft/raft.cpp:425-434 | a new term begins with no leader, no votes, no confirmed reads and nothing known of the peers, and with what is committed |
| Deadlines.WinningForgets | miniraft/raft.cpp:439-463 | so does a leadership, with every NextIndex at the leader's own empty entry |
| Deadlines.FreshIsDue | miniraft/raft.cpp:137-150 | a server that was just started stands at its first timeout, at whatever reading |
| Voting.EveryRequestAnswered | miniraft/raft.cpp:152-180 | every vote request is answered by exactly one message to its sender, in the term the server then has, granted exactly by the rule of sections 5.2 and 5.4.1; the log is untouched |
| Voting.GrantedAgain | miniraft/raft.cpp:160-167 | a granted request is granted again when it is repeated |
| Voting.StrayReplyIgnored | miniraft/raft.cpp:315-347 | a reply of no later term that the server does not wait for, a vote unless it stands or an answer unless it leads, changes nothing |
| Voting.CandidateLearns | miniraft/raft.cpp:152-157 | a candidate whose request reaches a server in a later term learns that term from the refusal and becomes its follower, log unchanged |
| Sending.LeaderSendsIff | miniraft/raft.cpp:393-403 | at each timeout a leader sends every peer one request exactly if the heartbeat is due or there are entries for the peer and its request timer has come, and sets both timers |
| Sending.NextBeatInTime | miniraft/raft.cpp:393-403 | after its timeout no heartbeat of a leader is due yet and none that it set is further away than half an election timeout |
| Sending.WinnerSends | miniraft/raft.cpp:439-481 | a winner sends a request to every peer at once |
| Sending.CandidateAsksIff | miniraft/raft.cpp:384-391 | at each timeout a candidate asks every peer exactly if the request timer of the peer has come, and sets that timer |
| Sending.CountedNotAsked | miniraft/raft.cpp:182-188 | a peer whose vote was counted is not asked again in that term |
| Sending.NextRequestFollows | miniraft/raft.cpp:248-274 | after any reply of its term, while entries are left for the peer, the next request to it goes out at the leader's next timeout, whatever the heartbeat timer says |
| Following.HeardNames | miniraft/raft.cpp:239-245 | after a request of no earlier term a server takes its sender for the leader, which is another server and has led that term |
| Following.NameLasts | miniraft/raft.cpp:239-245 | while it stays in that term and keeps running, it follows that leader and no other |
| Following.NamedHasLed | miniraft/raft.cpp:536-541 | in every reachable state whoever a server takes for the leader is another server that has led, in no later term than the server's |
| Following.ForwardedToALeader | miniraft/raft.cpp:543-549 | so a command is forwarded only to another server that has led, as the source asserts |
| Following.LeaderNamesNobody | miniraft/raft.cpp:501-512 | in every reachable state a leader knows no leader, itself included, so what waits at it for one goes on waiting |
| Replicas.StoresAgree | examples/kv.cpp:54-67 | two servers with equal LastAppliedIndex hold equal TKv maps, and one that is ahead holds the other's map plus its own further commands |
| Replicas.EntryTermsPositive | miniraft/raft.cpp:488-492 | no log ever holds an entry of term 0 |
| Replicas.ReachableLinksAreSound | miniraft/raft.cpp:248-313 | a leader and any other server that is in no later term satisfy, in every reachable state, the premises of the catch-up theorem |
| Replicas.WinnerCatchesUp | miniraft/raft.cpp:439-468 | after the winning timeout of any run, with a log of n entries the leader sees at most k rejections from a server in no later term, k logarithmic in n, and has it up to date within k + 2 exchanges and one per batch |
| Replicas.QueueLastIsLatestIff | miniraft/raft.cpp:569-575 | in a queue of consistent reads taken by a running server the last one waits for the largest index and counter exactly when no earlier read saw a longer log, and always while all come from one term |
| Reads.PairMeetsVoteQuorums | miniraft/raft.cpp:137-145 | the leader and one responder meet every vote quorum exactly in clusters of at most four servers |
| Reads.LeaderHasPinged | miniraft/raft.cpp:393-403 | a leader with peers always has a message counter of at least 1 |
| Reads.NoLaterLeader | miniraft/raft.cpp:410-416 | when a confirmed read was accepted, no server had yet led a later term |
| Reads.ReadCoversCommitted | miniraft/raft.cpp:572-575 | the last index recorded with a confirmed read covers everything committed anywhere by then |
| Gate.SeqnoMovesWithCommit | miniraft/raft.cpp:84-87 | CommitSeqno of a running server rises only together with a commit index of its own term |
| Gate.LaterTermCovers | miniraft/raft.cpp:71-89 | a leader whose commit index lies in its own, later term has committed at least as much as any server had before it won |
| Gate.SafeRun | miniraft/raft.cpp:669-670 | whenever CommitSeqno of the running server has reached a read's counter, the read was confirmed in its own term or a later term of the server covers it |
| Gate.ReadSeesEverythingApplied | miniraft/raft.cpp:669-678 | in clusters of at most four servers the state a consistent read is answered from contains every command any application had received when the read was accepted, whatever terms passed in between |
| ReadLimit.StaleRun | miniraft/messages.h:97-100 | for every configuration of five or more servers, a run without a clock going back in which a deposed leader answers the only consistent read without a command that was committed and applied before |
| ReadLimit.ReadsAreFreshIff | miniraft/messages.h:97-100 | consistent reads are fresh in every run in which no clock goes back if and only if the cluster has at most four servers |
| ReadLimit.ReadIsAnswered | miniraft/raft.cpp:669-678 | in every configuration, for any server and any commands, some run has that server lead, commit the commands, accept its only consistent read and answer it from a state that has exactly them |
| ReadLimit.ConfirmRead | miniraft/raft.cpp:410-416 | after a read, deliveries alone, at readings not below the clock, let the reply of one up-to-date follower confirm it |
| Acknowledged.SlotIsCommandIff | miniraft/raft.cpp:578-587 | on any server at any later or earlier moment, what stands at a taken write's index is that command exactly when it has the term in which the leader took it |
| Acknowledged.SmallClusterKeeps | miniraft/raft.cpp:578-587 | in clusters of one or two servers a taken command never leaves the log that took it, restarts included |
| Acknowledged.LossRun | miniraft/raft.cpp:648-661 | for every configuration of three or more servers, a run without a clock going back in which a deposed leader answers, with no failing assertion, the only request it ever took although another leader's command has taken its index |
| Acknowledged.WritesAreRealIff | miniraft/raft.cpp:578-593 | every answered write is the client's write, in every run in which no clock goes back, if and only if the cluster has at most two servers |
| Progress.AnyStateCommits | miniraft/raft.cpp:422-481 | from every reachable state, and for any vote quorum, some continuation in which only that quorum acts has one of its servers lead, commit a given new command on top of its log and apply it, with the whole quorum holding that log; but for that command it is made of deliveries and timeouts, with no clock going back |
| Progress.AnyQuorumCommits | miniraft/raft.cpp:422-481 | from the start any server, with any servers that make up a vote quorum with it, can be elected, take any sequence of client commands, commit all of them on that quorum and apply exactly them |
| Progress.FindLeader | miniraft/raft.cpp:422-481 | the server of a vote quorum with the most up-to-date log can become its leader, whoever leads now |
| Progress.StepDown | miniraft/raft.cpp:349-361 | a leader whose heartbeat reaches a server in a later term learns that term and becomes its follower, log unchanged |
| Elections.OneVote | miniraft/raft.cpp:152-188 | at any clock readings a server in a lower term with a log no more up to date grants its vote and the candidate counts it |
| Elections.Stand | miniraft/raft.cpp:422-437 | at any reading from its deadline on a server stands in the next term and asks every peer for its vote |
| Elections.TakeOver | miniraft/raft.cpp:439-468 | at any reading before its new deadline a candidate with a vote quorum leads at its next timeout, keeping its log but for its own empty entry |
| Elections.WinElection | miniraft/raft.cpp:422-468 | from every reachable state a server that does not lead, and whose log is at least as up to date as those of a vote quorum, can win an election with that quorum's votes, with deliveries and timeouts at readings not below the clock and nobody else acting |
| Exchanges.DueExchange | miniraft/raft.cpp:393-403 | whenever a request to a server is due, the leader's timeout and two deliveries, at any reading not below the clock, are one request/reply exchange of the catch-up theorem |
| Exchanges.OneExchange | miniraft/raft.cpp:393-403 | such a reading always comes, since every heartbeat does |
| Exchanges.CommandGoesOut | miniraft/raft.cpp:393-403 | a command taken by a leader reaches a peer that has acknowledged everything from the leader's next timeout, at any reading not below the clock and before the heartbeat, and the leader learns it |
| Exchanges.ReadExchange | miniraft/raft.cpp:410-416 | so are the pings of a consistent read and two deliveries |
| Exchanges.HeartbeatsFinite | miniraft/raft.cpp:393-403 | in every reachable state all heartbeat timers are finite, so every heartbeat comes due |
| Exchanges.CatchUpInRun | miniraft/raft.cpp:190-274 | from every reachable state a leader brings any server that is in no later term up to date by its heartbeats alone, at readings not below the clock, with no other server involved |
| Copying.CommitAll | miniraft/raft.cpp:82-87 | once a vote quorum is up to date with a log that ends in the current term, one more heartbeat and its reply commit all of it |
| Copying.CommitCommand | miniraft/raft.cpp:488-492 | a leader whose quorum is in no later term takes a command, brings the quorum up to date by heartbeats and commits its whole log |
| Log.LoopIsMergeIff | miniraft/raft.cpp:217-229 | the replace-or-append loop gives the log cut at the first disagreement plus the rest of the payload exactly when no term-0 entry is skipped |
| Log.LoopIsMerge | miniraft/raft.cpp:217-229 | for entries with positive terms loop and rule coincide |
| Log.MergeIdempotent | miniraft/raft.cpp:217-231 | the rule applied twice is the rule applied once |
| Log.ReplayTwice | miniraft/raft.cpp:217-231 | a request delivered twice leaves the log as one delivery does |
| Log.ReplaySlice | miniraft/raft.cpp:217-231 | a slice of the leader's log makes the follower agree with the leader up to its end, leaves the old log or gives the leader's prefix, and loses nothing that agreed |
| Log.StaleRequestKeepsLog | miniraft/raft.cpp:217-231 | the loop over a shorter, stale request of the same leader leaves the log exactly as it is |
| CatchUp.ExchangeWithStep | miniraft/raft.cpp:248-274 | one request and its reply, also from a follower that has yet to learn the term, either bring the follower and MatchIndex to the request's end, with the full batch and no back-off, or step NextIndex back by the doubling back-off to probe; the next request is due at once and the link stays sound |
| CatchUp.PayloadSize | miniraft/raft.cpp:287-313 | a request carries nothing while the match is unknown, and otherwise one batch or what is left |
| CatchUp.CatchesUp | miniraft/raft.cpp:248-313 | from any sound NextIndex and MatchIndex the loop reaches MatchIndex = LastLogIndex with the leader's log a prefix of the follower's within Fuel exchanges, stays there, and the follower rejects at most RejectionBound requests |
| CatchUp.FreshViewCatchesUp | miniraft/raft.cpp:254-272 | a leader that has not backed off yet, at NextIndex N, sees at most ceil(log2 N) rejections for N <= 65536 and at most 16 + ceil((N - 65536) / 32768) beyond, and is done after these, two more exchanges and one per batch |
| CatchUp.DoublingBound | miniraft/raft.cpp:264-272 | k rejections with doubling back-off cover all NextIndex values up to the sum of their steps |
| CatchUp.CappedBound | miniraft/raft.cpp:264-272 | at the cap each rejection covers 32768 entries |
| Raft.Raft.constructor | miniraft/raft.cpp:137-150 | a new server is the boot state over the persistent state it is given |
| Raft.Raft.OnRequestVote | miniraft/raft.cpp:152-180 | computes the vote step and sends its reply |
| Raft.Raft.OnVote | miniraft/raft.cpp:182-188 | counts a granted vote of the current term |
| Raft.Raft.OnAppend | miniraft/raft.cpp:190-246 | computes the follower step, the loop over the payload included, and sends its reply |
| Raft.Raft.OnAppended | miniraft/raft.cpp:248-274 | computes the leader's step on a reply, commit rule included |
| Raft.Raft.CreateAppendEntries | miniraft/raft.cpp:287-313 | builds the request the step function describes and counts it |
| Raft.Raft.Process | miniraft/raft.cpp:349-376 | the whole message handler is the protocol step |
| Raft.Raft.ProcessTimeout | miniraft/raft.cpp:422-481 | the whole timeout handler is the protocol step: candidacy, victory, heartbeats |
| Raft.Raft.LeaderTimeout | miniraft/raft.cpp:393-408 | sends the due requests, and commits alone in a cluster of one |
| Raft.Raft.CandidateTimeout | miniraft/raft.cpp:384-391 | sends the due vote requests |
| Raft.Raft.ApproveRead | miniraft/raft.cpp:410-416 | pings every peer and returns the counter from before |
| Raft.Raft.AppendCommand | miniraft/raft.cpp:488-492 | appends a command under the current term and returns its index |
| VolatileState.State.CommitAdvance | miniraft/raft.cpp:71-89 | the loops over the hash map, the padding and the sort compute the specified commit rule, whatever the map's order |
| VolatileState.State.PickIndex | miniraft/raft.cpp:73-83 | the picked index does not depend on the order of the map and equals the specified one |
| VolatileState.State.Collect | miniraft/raft.cpp:74-77 | the collected indices count, for every bound, the peers that reach it |
| LogState.State.constructor | miniraft/state.h:37-47 | the cached last index and term describe the given log |
| LogState.State.RemoveLast | miniraft/state.h:49-53 | drops the last entry and keeps the cached fields right |
| LogState.State.Append | miniraft/state.h:55-59 | appends and keeps the cached fields right |
| LogState.State.TermAt | miniraft/state.h:22-31 | the term at an index, 0 outside the log, the last one for a negative index |
| LogState.State.ReplaceOrAppend | miniraft/raft.cpp:217-231 | the follower loop computes the replayed log and the match index |
| LogState.State.Truncate | miniraft/raft.cpp:224-226 | the inner loop cuts the log to the wanted length |
| Routes.RoutesStayInverse | miniraft/raft.cpp:522-550 | over every interleaving of forwards, answers and clean-ups with fewer than 2^32 - 1 forwards the two cookie maps are inverse to each other and no cookie set is empty |
| Routes.AnswerGoesToItsClient | miniraft/raft.cpp:605-617 | an answer is passed on only to the client whose command was forwarded under its cookie, with no answer and no clean-up of that client in between |
| Routes.AnsweredAtMostOnce | miniraft/raft.cpp:605-617 | no cookie is answered twice |
| Routes.CookiesDiffer | miniraft/raft.cpp:544-548 | no two forwards share a cookie |
| Routes.AnswerUndoesForwardIff | miniraft/raft.cpp:544-548 | the answer to a forward restores the maps exactly while the counter has not wrapped to 0 |
| Routes.NoSecondHop | miniraft/raft.cpp:528-532 | a forwarded command is refused by any server that would forward it again |
| Routes.AnswersIff | miniraft/raft.cpp:605-628 | an answer is passed on to a client exactly when a command of it was forwarded under that cookie and neither answered nor given up since |
| Routes.HopFates | miniraft/raft.cpp:522-553 | every command has one of three fates: with a cookie it is refused to its sender, without a known leader it waits with its client, otherwise it goes to that leader and nowhere else |
| Routes.ForwardComesBack | miniraft/raft.cpp:543-549 | a forwarded command keeps flags and body, and whatever happens later the answer under its cookie is passed on to its client, unless it has been already or the client has gone |
| Routes.AllForwarded | miniraft/raft.cpp:514-519 | commands that waited for a leader all go to it, each once and in order |
| Waiting.AnswersStayOrdered | miniraft/raft.cpp:631-646 | answers are kept in the order of their indices, none beyond what was applied |
| Waiting.AnswerIffCommand | miniraft/raft.cpp:634-644 | an applied index has an answer exactly when its entry is not a stub |
| Waiting.FrontIffKept | miniraft/raft.cpp:655-660 | dropping earlier answers brings the wanted one to the front exactly when it was kept |
| Waiting.EveryoneServedIff | miniraft/raft.cpp:669-678 | every waiting client hears from the loop exactly when they all are the last one under the same cookie |
| Waiting.LastReadyMeansAllIff | miniraft/raft.cpp:669-670 | the test of the last request holds exactly when it holds for all, whatever was applied and confirmed, if and only if no request waits for more than the last one |
| Processor.RequestProcessor.constructor | miniraft/raft.h:158-164 | a new processor has empty queues and maps, and cookies start at 1 |
| Processor.RequestProcessor.ForwardCommand | miniraft/raft.cpp:522-553 | refuses, parks or forwards a command, with the cookie maps as specified |
| Processor.RequestProcessor.CheckStateChange | miniraft/raft.cpp:501-520 | once a leader is known and the server is no candidate, everything that waited is forwarded in order and nothing goes on waiting; before that nothing changes |
| Processor.RequestProcessor.TakeUp | miniraft/raft.cpp:595-603 | a command that waited is forwarded when it comes in again |
| Processor.RequestProcessor.OnCommandResponse | miniraft/raft.cpp:605-617 | passes an answer to the recorded client and forgets the cookie |
| Processor.RequestProcessor.Disconnect | miniraft/raft.cpp:619-628 | forgets every cookie of a client |
| Processor.RequestProcessor.OnReadRequest | miniraft/raft.cpp:555-576 | queues a stale or default read and sends nothing, pings every peer for a consistent one and queues it, forwards the rest, and changes nothing else |
| Processor.RequestProcessor.OnWriteRequest | miniraft/raft.cpp:578-593 | the leader appends the command and waits for its index, others forward it |
| Processor.RequestProcessor.ProcessCommitted | miniraft/raft.cpp:631-646 | afterwards the store is the fold of the non-stub entries up to CommitIndex, and one answer was kept for each newly applied command |
| Processor.RequestProcessor.DrainWaiting | miniraft/raft.cpp:648-667 | nothing is answered before its index is applied; what is answered is the last request, once per queued one when it is a read; a write is answered once when its answer was kept, and when others waited the loop then fails, with exactly that reply sent |
| Processor.RequestProcessor.DrainStrong | miniraft/raft.cpp:669-678 | no consistent read is answered before its index is applied and its counter confirmed; every reply is read from the current store for the last request |
| Kv.CommandRoundTripIff | examples/kv.cpp:54-67 | the bytes of a set or del have exactly the effect the client asked for, on every store, if and only if sizes fit 16 bits and the value is not empty |
| Kv.CommandsRoundTrip | examples/kv.cpp:100-132 | any sequence of fitting commands carried through the log builds the map they describe |
| Kv.FoldConcat | miniraft/raft.cpp:631-646 | applying a log in two parts is applying it at once |
| Listing.ReadLatest | examples/kv.cpp:27-67 | after any fitting commands carried through the log a read returns the value of the key's last set, and nothing when there was none or it was deleted since |
| Listing.LineRoundTripIff | examples/kv.cpp:30-33 | a line of the listing is read as its key and value exactly when neither has a line feed and no separator begins in the key |
| Listing.ListingRoundTripIff | examples/kv.cpp:30-33 | a whole listing is read as exactly its pairs, in its order, if and only if all of them are such |
| Listing.ListingTells | examples/kv.cpp:27-37 | what list returns for such a store is read as its pairs, each once and nothing else |
| Listing.EqualListings | examples/kv.cpp:27-37 | such stores with equal listings are equal |
| Listing.AmbiguousListing | examples/kv.cpp:30-33 | two stores without line feeds or separators in any key or value that have the same listing |
| Kv.KvRsm.Write | examples/kv.cpp:54-67 | an entry is applied once, at or below LastAppliedIndex it is skipped |
| Kv.KvRsm.Prepare | examples/kv.cpp:69-74 | the log entry carries the command body unchanged and is no stub |
| Kv.KvRsm.Read | examples/kv.cpp:27-52 | returns the value of the key, nothing for a missing one, and for key size 0 every pair of the store once, in some order |
| Kv.KvRsm.List | examples/kv.cpp:30-33 | the loop lists every pair exactly once |
| DiskRuns.DiskRefinesLog | miniraft/persist.cpp:42-102 | after any run of appends, removals, reads, votes and reopenings without an append to an emptied log in a used session, Get(i) is the i-th live entry at its contiguous offset, everything else is missing, and term and vote are the last ones set |
| DiskRuns.AppendToEmptyIff | miniraft/persist.cpp:72-85 | an entry appended to an empty log is found again exactly when the session has not touched an entry or the stale first record equals it; otherwise that stale record is found |
| DiskRuns.LastTermRight | miniraft/persist.cpp:20-22 | the cached last term is right after each append and each reopening |
| DiskRuns.RemovalLeavesTermIff | miniraft/persist.cpp:64-70 | after a removal the cached last term is right exactly when the entry now last has the term of the one removed |
| DiskRuns.KeepReopen | miniraft/persist.cpp:4-23 | reopening the files gives back log, term, vote and last term |
| DiskRuns.RunKept | miniraft/persist.cpp:42-102 | in every such run the entries file starts with the live records, the index file with their offsets, and the state file holds the fields |
| LogOps.ReplayOpsReplay | miniraft/raft.cpp:217-229 | the loop's removals and appends give its result, and what is in place at the end was never touched in between |
| Persisted.RunOpsLog | miniraft/raft.cpp:217-229 | the removals and appends of a run give the server's log |
| Persisted.CommittedStaysOnDisk | miniraft/raft.cpp:223-232 | no disk operation after a moment, restarts included, touches an entry at or below the CommitIndex of that moment, not even in the middle of a request |
| Persisted.DiskHoldsLog | miniraft/persist.cpp:72-102 | a server that has committed anything never appends to an emptied log again, so its disk goes on holding exactly its log, provided it did up to the first commit |
| Persisted.CachedTermRight | miniraft/raft.cpp:276-285 | at every moment of a run the cached last term, which vote requests carry, is that of the server's log, since removals are always followed by an append |
| Persisted.SmallClusterCareful | miniraft/persist.cpp:72-85 | in clusters of one or two servers no server ever empties its log, so none appends to an emptied one |
| Persisted.CarelessRun | miniraft/persist.cpp:72-85 | in every cluster of three or more servers some run makes a server append to its emptied log in a session that has used the file |
| Persisted.DisksAreCarefulIff | miniraft/persist.cpp:72-85 | the disk is never taken to that fault, in any run in which no clock goes back, if and only if the cluster has at most two servers |
| Disk.RecordRoundTrip | miniraft/persist.cpp:42-62 | a record written anywhere in the file is read back, with the position behind it |
| Disk.GetFinds | miniraft/persist.cpp:87-102 | on files that represent a log Get finds exactly the live entries |
| Disk.AppendKeeps | miniraft/persist.cpp:72-85 | an append where the last record ends, overwriting whatever stale bytes are there, extends the represented log by one |
| Disk.RecordIsWire | miniraft/messages.h:33-42 | a log entry has the same bytes on disk and on the wire |
| DiskState.DiskState.constructor | miniraft/persist.cpp:4-23 | opening files reads the state file of the right size and otherwise writes the defaults |
| DiskState.DiskState.Get | miniraft/persist.cpp:87-102 | seeks and reads as specified and leaves the file behind the record |
| DiskState.DiskState.Append | miniraft/persist.cpp:72-85 | writes entry, offset and state as specified |
| DiskState.DiskState.RemoveLast | miniraft/persist.cpp:64-70 | lowers the last index and commits it |
| DiskState.DiskState.Commit | miniraft/persist.cpp:104-113 | the three writes leave the state file with all three fields |
| DiskState.DiskState.ReadRecord | miniraft/persist.cpp:42-57 | the three reads give the record at the position or fail |
| Framing.ReadIffWritten | miniraft/net/server.cpp:13-48 | the reader returns a message and leaves a rest exactly when the message is well formed and the bytes are the written message followed by that rest |
| Framing.StreamRoundTrip | miniraft/net/server.cpp:13-48 | messages written one after the other are read back as the same sequence with every byte consumed, exactly when all are well formed |
| Wires.MessageRoundTripIff | miniraft/messages.h:33-89 | a message of the protocol is read from the stream as the message that was sent, with the rest of the stream left, exactly when every number fits its field and Nentries counts the payload |
| Framing.Parse | miniraft/net/server.cpp:25-48 | on any finite byte sequence the reader ends, and a message it returns used up bytes |
| Stream.Socket.WriteMessage | miniraft/net/server.cpp:13-22 | the recursive writer appends exactly the serialized message |
| Stream.Socket.ReadMessage | miniraft/net/server.cpp:25-48 | the recursive reader accepts what the specification accepts and leaves the same rest |
| Bytes.FieldRoundTrip | miniraft/messages.h:24-31 | a number that fits its fixed-width field is read back |
| Bytes.ToFromBytes | miniraft/messages.h:24-31 | a fixed-width field that was read is written back as it was |

## Left out

- Safety.StateMachineSafety: assumes that log, term and vote are persisted atomically with the step that changes them; crashes in the middle of a write are not modelled. The cluster uses the vector log; Persisted.DiskHoldsLog says when the disk log is the same.
- Gate.ReadSeesEverythingApplied: for clusters of at most four servers, where alone it holds (ReadLimit.ReadsAreFreshIff); it is about a server that did not restart in between and answers right after ProcessCommitted, as the message loop does (`miniraft/net/server.cpp:134-137`).
- Reads.NoLaterLeader: about reads confirmed in the term in which they were accepted; what happens across terms is Gate.SafeRun.
- Progress.AnyStateCommits: shows that the continuation exists; that such a continuation happens needs assumptions on timing that are not modelled. The message loop runs ProcessTimeout and ProcessCommitted after every message (`miniraft/net/server.cpp:133-137`); here, as for every run that is constructed, they are actions of their own that come when the run has them.
- Acknowledged.WritesAreRealIff: stale and default reads, which share the queue of waiting writes, are not actions of a run; what the queue does with them is Processor.RequestProcessor.DrainWaiting.
- Durable.ReplicasAgree: the state machine starts empty after a restart, as the in-memory ones do; `examples/sql.cpp`, which keeps its own LastAppliedIndex in SQLite, is not modelled.
- DiskRuns.DiskRefinesLog: does not cover an append to an emptied log in the same session, where the property is false (DiskRuns.AppendToEmptyIff; Persisted.DisksAreCarefulIff says which clusters get there), and requires offsets, terms and lengths that fit their fields.
- Disk.Get: does not model the failure flag a C++ stream keeps after a read past its end; no such read happens in the runs DiskRuns.DiskRefinesLog covers.
- DiskState.DiskState.constructor: promises nothing when the state file names a last entry that cannot be read, where the program throws or dereferences a null pointer.
- Framing.Parse: a length shorter than the fields that are read, which the source asserts against or reads out of bounds, counts as a failure; short reads of a live connection, which the source treats like a closed one, do not occur in the model.
- Kv.KvRsm.Write: a command whose sizes exceed its bytes is outside the model; the source reads past its buffer.
- Routes.RoutesStayInverse: up to 2^32 - 2 forwards; what happens when the counter wraps is Routes.AnswerUndoesForwardIff.
- CatchUp.CatchesUp: one leader and one follower with no other messages in between; the bound under message loss or competing elections is not modelled.
- Processor.RequestProcessor.DrainWaiting: a failing assertion ends the loop with `false`; builds without assertions would read an empty queue.
- Processor.RequestProcessor.OnReadRequest: the source's assertions on the order of the queues are not part of the model; after a truncated log they can fail.
- Processor.RequestProcessor.CheckStateChange: relies on what parks commands, that they have no cookie and are no stale reads, and on leaders knowing no leader (Following.LeaderNamesNobody).
- Processor.RequestProcessor.OnWriteRequest: every request has a client to answer; requests without a reply address are not modelled.
- `TDummyRsm::Read`, which returns the n-th applied entry; what it has been given is Durable.AppliedExactly.
- Fixed-width narrowing of indices and counters (`SetCommitIndex(int)`, `int seqno`), the pseudo-random generator and the floating-point arithmetic of `MakeElection`: natural numbers, and an arbitrary finite deadline after now.
- The transition in `FollowerTimeout`, which cannot fire after the check in `ProcessTimeout`, and direct calls to `Become`.
- Messages of other types handed to `Process`, which every role ignores.
- Sockets, coroutines, TLS, connecting and reconnecting, host parsing, the main programs and `examples/percentiles2.cpp`: the growing set of messages covers what the network can do.
- Snapshots and membership changes, which the repository does not implement.
