# Ground-Hog: a verified model

Ground-Hog is a Raft cluster inside a deterministic simulator: nodes on faulty disks and a
faulty network, a seeded scheduler, and checkers that watch every event. This project models
the consensus code, the durable log under it, the checkers and the scheduler, and proves what
they promise for clusters of any size, over every run.

## How it is built

**The step system.** `NodeSpec` gives each handler of a node as a function from its state to
its new state, the records it writes and the packets it sends. `Cluster` puts the nodes
together. Its network is the set of all packets ever sent: a sent packet may arrive at any
time, any number of times or never, which covers loss, delay, duplication, reordering, hangs
and partitions. Any running node may time out at any time. A disk may fail inside a handler,
and then any prefix of the records that handler writes survives the crash.

**The proof.** `History` records beside a run what has happened so far: candidacies, votes,
elections in the order they happened, each term's log, acknowledgements and commits. The
invariant over history and what every disk would recover (`History`, `Invariant`) is kept by
small steps (`HistorySteps`), by every handler and by every handler cut short (`Handlers`,
`AppendHandlers`, `LeaderHandlers`), and so by every run (`Safety`). Leader completeness goes
by induction on the order of elections (`Completeness`), because a crash inside
`on_append_entries` can bring a node back with entries newer than its term, and because an
old term can be won after a newer one. `Theorems` states the results about the system alone.

**The objects.** `RaftNodes`, `RaftStorages`, `Disk`, `Codec` and `Persist` are the classes of
the program, with their fields updated in place, down to the bytes of the write-ahead log and
a crash at any byte. Each handler is proved to do what its function in `NodeSpec` says, or to
stop with nothing sent and a prefix of its records written. `SimNodes` then shows that
whatever happens to a node and its disk is an event of the step system, and `RaftClusters`
that it moves all the nodes of a cluster as that event moves the run, so that the theorems
hold of the objects. That replies follow durability is derived, not assumed. `StorageTwins`
shows that the real file and the simulated disk cannot be told apart until something fails.

**Progress.** `HandlerLaws` says what each handler's answer means to whoever gets it, and
`Commits` how far nodes commit. `CatchUp` and `CatchUpRuns` are the walk back of `next_index`.
`Elections` and `Availability` turn that into runs: a majority that is up can always be brought
to elect a leader and to serve a client, by timeouts and deliveries of which the numbers are
exact. `Timers` follows which election timers are running, and gives the exact condition for a
leader to come about when only those go off. `Hints` is about whom a node names as the leader.

**The rest.** `Payments` and `Promises` say when an ok reply is sent and what it is worth.
`Checkers` and `Watching` prove what each checker reports and which of them a run can provoke.
`Scenarios` and `StuckScenario` hold four concrete runs. `Events`, `Clocks` and `Simulators`
are the scheduler; `Networks` and `Faults` are the switchboard and the fault timeline. What
disks, network and fault timeline draw at random is a parameter or a function given from
outside, and what they do with it is stated exactly.

## Where the code does less than its text says

- The leader-completeness checker takes any election it notices after a commit for a later
  one. A candidate of an old term may collect its last vote after a newer term has committed
  an entry, and the checker then objects although nothing is wrong. `Watching.Watch` proves
  that this is the only thing any of the six checkers ever reports, and exactly when;
  `Scenarios.StaleWinHappens` is such a run.
- A reply owed to a client is kept by log index alone, and neither stepping down nor
  truncating the log clears it. A node can therefore send an ok reply on applying somebody
  else's entry (`Scenarios.OkReplyForAnotherEntry`). `Promises.OkReplyIsForRequest` gives the
  exact condition under which the reply is for the request's own entry.
- Stepping down does not start the election timer that leading had stopped. A deposed leader
  that then refuses its challenger waits for somebody else, and if its log is the only one
  that can win, a majority that is up stays without a leader
  (`StuckScenario.MajorityStaysLeaderless`). `Timers.LeaderIffArmed` gives the exact
  condition under which a leader can still come about.

## Model

| member | source | states |
|---|---|---|
| Theorems.ElectionSafety | groundhog/raft/node.py:245-296 | At most one node ever leads in a term: any two moments of any run, with crashes, restarts and disks that fail inside a handler |
| Theorems.LogMatching | groundhog/raft/node.py:313-334 | Two logs that at any two moments of a run held an entry of one term at one index are identical up to that index, commands included, although a follower compares terms only |
| Theorems.LeaderCompleteness | groundhog/raft/node.py:258-271 | What any running node knew to be committed in its term is a prefix of the log of every leader of a newer term, whenever in the run that leader leads |
| Theorems.StateMachineSafety | groundhog/raft/node.py:521-532 | No two nodes, at any two moments, have applied different entries at one index; each store is the fold of the applied prefix of its log, so equal `last_applied` means equal stores |
| Theorems.CommittedPrefixIsKept | groundhog/raft/node.py:322-345 | In one event of any run a node that stays up never lowers its commit index and never rewrites anything up to it, and a leader only appends, although the update of `commit_index` has no `max` |
| Theorems.DurableBeforeSpeaking | groundhog/raft/node.py:185-202 | Between events the write-ahead log of a running node replays to exactly its term, vote and log; restarting it changes nothing, and crashing and restarting it loses only what is volatile |
| Theorems.EveryCutReplays | groundhog/raft/persist.py:86-102 | Wherever a crash cuts the write-ahead log of any node of any run, what is left replays to a log without gaps |
| Theorems.NothingRaises | groundhog/log.py:84-106 | In no run does a handler look up an index that is not there, append out of order, or recover a log with gaps |
| Theorems.EveryPacketIsHandled | groundhog/raft/node.py:298-350 | Every packet a run has sent meets, at a running receiver, the conditions under which its handler raises nothing |
| Theorems.EntriesReachCommit | groundhog/raft/node.py:340-345 | Every AppendEntries a run has sent carries entries numbered on from its previous index, up to or beyond the commit index that it announces |
| Elections.MajorityElects | groundhog/raft/node.py:399-424 | From every state of every run with a majority up, whatever is lost, held or on the network: one node of it, timing out as often as its term is behind and then with one request and one reply per other member delivered, leads the term after the newest, all the majority in that term having voted for it |
| Elections.CanBeElected | groundhog/raft/node.py:245-296 | Any node whose log passes against those of a majority that is up can be so elected in any term newer than theirs, the number of events of each kind being exact |
| Availability.MajorityServes | groundhog/raft/node.py:426-446 | From every state of every run with a majority up, a client's next request can be served with no fault and no further timeout than the election's: every node of the majority has the same log, ending with the command, has committed and applied all of it, and the client's ok reply is on the network |
| Availability.LeaderCanServe | groundhog/raft/node.py:426-446 | The same from a leader on, by heartbeats and deliveries alone, whatever unapplied entries of older terms it inherited |
| Availability.AnsweredOnceApplied | groundhog/raft/node.py:521-532 | A leader that accepts a request and applies its index, with no restart or other request in between, has put the ok reply for it on the network |
| Commits.LeadersCommitAll | groundhog/raft/node.py:377-397 | In every state of every run no leader has left uncommitted an entry above its commit index that it may commit |
| Commits.MajorityCommits | groundhog/raft/node.py:382-397 | Once a leader whose last entry is of its own term credits a majority with its whole log, all of it is committed and applied, whatever older entries come before |
| Commits.FollowersCommit | groundhog/raft/node.py:340-345 | A follower of a run that accepts an AppendEntries, with entries or without, ends with its commit index, and what it has applied, at the greater of its own and the one it was told |
| Commits.CommittedIsLed | groundhog/raft/node.py:340-345 | What any running node knows to be committed begins the log of every leader whose term is no older |
| Hints.HintsLed | groundhog/raft/node.py:450-461 | In every run whoever a node takes for the leader led that node's term at some moment before, and so did the sender of every AppendEntries |
| Hints.RedirectNamesLeader | groundhog/raft/node.py:426-433 | A client turned away is told its own request id and, if anybody, a node that led the term of the node it asked; nothing is written |
| Timers.LeaderIffArmed | groundhog/raft/node.py:552-560 | In a state of a run without a leader and with nothing helpful on the network, a leader can come about with no fault, no restart and only timers that run going off if and only if some node with a running timer has a log that passes against those of a majority that is up |
| Timers.ArmedCanBeElected | groundhog/raft/node.py:552-560 | Such a node can be elected from any state of a run by its own running timer and deliveries |
| StuckScenario.MajorityStaysLeaderless | groundhog/raft/node.py:245-277 | A concrete run of nine events after which a majority is up and nothing fails, and yet no continuation without faults or restarts ever has a leader: the deposed leader's election timer is not running, and the one that is running is of a node nobody votes for |
| Completeness.QuorumReachesLeaders | groundhog/raft/node.py:377-397 | What a majority acknowledged to the leader of a term is in the log of every winner of a newer term: induction on the order in which elections happened, which survives logs newer than the recovered term |
| Completeness.CommitReachesLedger | groundhog/raft/node.py:377-397 | The log of every leader of the commit's term or a newer one begins with what was committed |
| Completeness.UpToDateHolds | groundhog/raft/node.py:258-261 | A candidate that passes the comparison of last term and length against a voter that holds an acknowledged prefix holds it too, given what every earlier winner held |
| HistorySteps.SameTermSamePrefix | groundhog/raft/node.py:313-334 | Logs whose entries all come from their terms' leaders agree up to any position where they have the same term |
| HistorySteps.QuorumsMeet | groundhog/raft/node.py:148-151 | Any two majorities `n // 2 + 1` of one cluster share a node, for every cluster size |
| HistorySteps.VoteKeeps | groundhog/raft/node.py:262-271 | Granting a vote keeps one vote per voter and term, and the record of what the voter's log held |
| HistorySteps.WinKeeps | groundhog/raft/node.py:291-296 | Winning on a majority keeps every election, vote, acknowledgement and leader's log consistent, even for a win in an old term |
| HistorySteps.AckKeeps | groundhog/raft/node.py:340-350 | Acknowledging a prefix of a leader's log keeps every promise already made |
| HistorySteps.AppendKeeps | groundhog/raft/node.py:437-446 | A leader extending its own log keeps all that was recorded |
| HistorySteps.CommitKeeps | groundhog/raft/node.py:382-397 | Committing an entry of the leader's own term found on a majority is a commit in the sense the rest relies on |
| Handlers.OnRequestVoteKeeps | groundhog/raft/node.py:245-277 | The vote handler keeps the invariant: history, its node, its reply and every cut of its writes |
| Handlers.OnRequestVoteReplyKeeps | groundhog/raft/node.py:279-296 | Counting a vote, winning or stepping down keeps the invariant |
| Handlers.OnElectionTimeoutKeeps | groundhog/raft/node.py:399-424 | Standing for election, winning at once in a cluster of one, keeps the invariant |
| AppendHandlers.OnAppendEntriesKeeps | groundhog/raft/node.py:298-350 | Taking or refusing entries keeps the invariant, including everything the reply promises |
| AppendHandlers.CutLogOk | groundhog/raft/node.py:325-338 | After any prefix of truncation, entries and state record has reached the disk, the recovered log still comes from the leaders of its terms and holds everything acknowledged that the full write would hold |
| AppendHandlers.OnAppendEntriesFails | groundhog/raft/node.py:325-338 | A disk error anywhere inside the handler keeps the invariant, whatever prefix of its records survives |
| AppendHandlers.CommittedUntouched | groundhog/raft/node.py:322-334 | Accepting entries never truncates at or below the commit index |
| LeaderHandlers.HoldersCount | groundhog/raft/node.py:390-395 | Counting acknowledgements down the list of peers counts the set of nodes that acknowledged |
| LeaderHandlers.OnAppendEntriesReplyKeeps | groundhog/raft/node.py:352-375 | Noting a match, committing and walking back keep the invariant |
| LeaderHandlers.OnClientRequestKeeps | groundhog/raft/node.py:426-446 | Accepting a write keeps the invariant, also where one node is a majority |
| Safety.StepKeeps | groundhog/raft/node.py:206-243 | Every event of the step system keeps the invariant, and history only grows |
| Safety.RunKeeps | groundhog/raft/node.py:206-243 | The invariant holds in every state of every run |
| RaftNodes.RaftNode.OnRequestVote | groundhog/raft/node.py:245-277 | In place: node, writes and reply are those of the vote rule, unless one of its writes was drawn to fail or an encoder refuses a record; then nothing was sent and only a prefix of its records was written |
| RaftNodes.RaftNode.OnRequestVoteReply | groundhog/raft/node.py:279-296 | The same for counting votes, keyed by voter, and taking charge |
| RaftNodes.RaftNode.OnElectionTimeout | groundhog/raft/node.py:399-424 | The same for standing: term and own vote are synced before any request leaves |
| RaftNodes.RaftNode.OnAppendEntries | groundhog/raft/node.py:298-350 | The same for taking entries: everything is synced before anything is applied or answered |
| RaftNodes.RaftNode.Merge | groundhog/raft/node.py:322-334 | The loop over incoming entries leaves the log of rules 3 and 4 and writes at most one truncation, before any entry |
| RaftNodes.RaftNode.OnAppendEntriesReply | groundhog/raft/node.py:352-375 | The same for a follower's reply |
| RaftNodes.RaftNode.FindCommitPoint | groundhog/raft/node.py:382-397 | The downward scan finds the highest entry past `commit_index` of the leader's own term that a majority holds, or none |
| NodeSpec.CommitPoint | groundhog/raft/node.py:382-397 | The index is the commit index or may be committed, and nothing above it may |
| NodeSpec.Divergence | groundhog/raft/node.py:325-334 | The offset is the first incoming entry that the log lacks or holds with another term |
| HandlerLaws.OneOfTwoPasses | groundhog/raft/node.py:258-264 | Of two logs one passes the comparison against the other; the newer last term passes alone whatever the lengths, and with equal last terms the longer log |
| HandlerLaws.GrantMeans | groundhog/raft/node.py:245-277 | A vote is granted exactly if the voter ends in the candidate's term, its vote in it is the candidate's and the candidate's log passes; the reply carries the greater of the two terms |
| HandlerLaws.VoteIsRepeated | groundhog/raft/node.py:264-271 | Asked again for a vote it gave, a node gives it again and changes nothing |
| HandlerLaws.StaleCandidateStepsDown | groundhog/raft/node.py:245-285 | A candidate of an older term is refused with the voter's term, and the refusal makes it a follower in that term |
| HandlerLaws.StaleLeaderStepsDown | groundhog/raft/node.py:298-357 | A leader of an older term likewise, the refusing node not moving at all |
| HandlerLaws.StandsOrLeads | groundhog/raft/node.py:399-424 | A node that stands asks every peer once, in order, with its own last index and term, or leads at once if it is the whole cluster |
| HandlerLaws.MajorityOfVotesLeads | groundhog/raft/node.py:279-296 | A vote makes a leader exactly of a candidate of its term that with it has more than half of the cluster's, each voter counted once; the new leader at once tells every peer |
| HandlerLaws.FirstPackets | groundhog/raft/node.py:469-483 | What a new leader first sends names the end of its own log and brings no entries, and it credits nobody with anything |
| HandlerLaws.OneToEach | groundhog/raft/node.py:487-504 | Replicating sends each peer one message: the entry before `next_index` to check, all after it, and the leader's commit index |
| HandlerLaws.TakesWhatFollows | groundhog/raft/node.py:298-350 | Entries are taken if and only if they are not of an older term and the log has the entry named as the one before them; the reply says which, in the receiver's new term, and how far the entries reached |
| HandlerLaws.CommitsWhatItIsTold | groundhog/raft/node.py:340-345 | A follower that accepts a message that reaches the commit index it announces ends with the greater of that and its own, all applied |
| HandlerLaws.CommitsNoFurther | groundhog/raft/node.py:340-345 | It goes no further than the message reached or the leader said, and stops short of neither without reaching the other; no news changes nothing |
| HandlerLaws.SuccessCommitsAll | groundhog/raft/node.py:352-375 | After a success the leader has committed all that it may, credits the follower with no less than before, and goes on from there |
| HandlerLaws.RequestCommitsAll | groundhog/raft/node.py:426-446 | After a request the leader has appended the command in its own term and committed all that it may |
| HandlerLaws.RequestTellsAll | groundhog/raft/node.py:440-446 | It sends every peer all that the peer is believed to lack, ending with the new entry, and after that only replies to clients |
| HandlerLaws.MatchNeverFalls | groundhog/raft/node.py:359-367 | While a node leads, what it credits a peer with never falls, whatever it receives |
| RaftNodes.RaftNode.ApplyCommitted | groundhog/raft/node.py:521-532 | The loop applies every committed entry once, in order, and pays exactly the replies owed for the indices it passes |
| RaftNodes.OneApplied | groundhog/raft/node.py:521-532 | Applying the next entry and then the rest is applying them all: store, debts and replies |
| RaftNodes.RaftNode.OnClientRequest | groundhog/raft/node.py:426-446 | The same for a write: durable before it is replicated, owed and not paid |
| RaftNodes.RaftNode.BecomeLeader | groundhog/raft/node.py:469-483 | Leader state starts one past the log and at the sentinel, and every peer is sent what that implies |
| RaftNodes.RaftNode.Crash | groundhog/raft/node.py:158-183 | Term, vote, log, store, role and debts are those of a new node that does not run; the storage is not in the frame; on a node already down nothing changes |
| RaftNodes.RaftNode.Restart | groundhog/raft/node.py:185-202 | Term, vote and log are what the surviving records replay to; all else, also on a node already up, stays |
| SimNodes.SimNode.OnMessage | groundhog/raft/node.py:206-243 | A packet of any run arriving at the objects takes them where the step system goes: the whole handler, or, exactly if one of its writes was drawn to fail, a dead node whose disk kept some prefix of what it writes; only an unencodable record ends the run |
| SimNodes.SimNode.OnElectionTimeout | groundhog/raft/node.py:570-573 | The same for a timeout at a running node |
| SimNodes.SimNode.OnHeartbeat | groundhog/raft/node.py:575-578 | The same for a heartbeat, which touches no disk and never raises |
| SimNodes.SimNode.Crash | groundhog/raft/world.py:81-83 | A crash between events finds everything synced, so nothing that was written is lost |
| SimNodes.SimNode.Restart | groundhog/raft/world.py:85-87 | Recovering disk and node never raises, and gives the restart of the step system, also on a node already up |
| SimNodes.SimNode.Die | groundhog/raft/world.py:353-362 | After a disk error the image is cut exactly as the crash was drawn, and the records that recovery will read are all those synced before and a prefix of the handler's |
| RaftClusters.NewCluster | groundhog/raft/world.py:297-311 | Building disk, storage, link and node for each id gives a cluster that is at the start of a run, no two nodes sharing an object |
| RaftClusters.RaftCluster.OnMessage | groundhog/raft/world.py:328-329 | One node handling any packet ever sent moves all the objects of the cluster as one delivery moves the run, cut short exactly if its disk was drawn to fail |
| RaftClusters.RaftCluster.OnElectionTimeout | groundhog/raft/node.py:570-573 | The same for a timeout at one node |
| RaftClusters.RaftCluster.OnHeartbeat | groundhog/raft/node.py:575-578 | The same for a heartbeat, which never raises |
| RaftClusters.RaftCluster.CrashNode | groundhog/raft/world.py:81-83 | The same for a crash of one node between events |
| RaftClusters.RaftCluster.RestartNode | groundhog/raft/world.py:364-370 | The same for a restart, which never raises, also of a node already up |
| RaftClusters.OthersStay | groundhog/raft/world.py:328-329 | No event touches the state or the write-ahead log of any node but the one it happens to |
| RaftClusters.RaftCluster.OneLeader | groundhog/invariants/safety.py:40-48 | Among the objects of a cluster, whatever has happened to them, two leaders of one term are one node |
| RaftClusters.RaftCluster.SameApplied | groundhog/invariants/safety.py:188-210 | What one node object has applied is what every other that has applied as much holds at those indices; equally far means equal stores |
| RaftClusters.RaftCluster.LeaderHoldsCommitted | groundhog/invariants/safety.py:146-168 | A leader object of a newer term holds all that another running node object takes for committed |
| Payments.DispatchPays | groundhog/raft/node.py:206-243 | Whatever the message, a handler sends exactly the ok replies owed up to its new `last_applied`, in order, and strikes off exactly those |
| Promises.DebtsAreAhead | groundhog/raft/node.py:441-446 | In every run a node owes replies only for indices that it has not applied yet |
| Promises.DeliveryPays | groundhog/raft/node.py:521-532 | A delivery of a run pays exactly the debts it comes to apply and leaves the others: replies sent and debts left add up to the debts there were |
| Promises.PaidExactlyOnce | groundhog/raft/node.py:521-532 | While a node stays up, the reply owed for an index is sent by exactly one event by the time the index is applied |
| Promises.OkReplyWasSent | groundhog/raft/node.py:521-532 | Every ok reply on the network of a run was sent by a running node in handling a delivery |
| Promises.OkReplyIsForRequest | groundhog/raft/node.py:521-532 | Any ok reply on the network was sent by some delivery and owed for an applied index; the entry applied there is the request's own if and only if its term is the one that accepted the request, as it is while the node still leads that term |
| Promises.HonouredByLeaders | groundhog/raft/node.py:426-446 | The entry of an honoured request is in the log of every leader of a newer term |
| Promises.HonouredOnceApplied | groundhog/raft/node.py:521-532 | No node ever applies anything else at the index of an honoured request |
| Promises.BooksAreKept | groundhog/raft/node.py:441-446 | In every run a pending reply remembers a request whose leader did write its entry at that index of its term's log |
| Scenarios.OkReplyForAnotherEntry | groundhog/raft/node.py:450-461 | A concrete run in which an ok reply is sent for a request whose entry was overwritten: stepping down and truncating keep the debt |
| Scenarios.EntryNewerThanTerm | groundhog/raft/node.py:336-338 | A concrete run after which a node is back with an entry of a term newer than its own |
| Scenarios.StaleWinHappens | groundhog/invariants/safety.py:146-168 | A concrete run, sound in every other respect, to which the leader-completeness checker objects |
| CatchUpRuns.LeaderCanCatchUp | groundhog/raft/node.py:364-375 | From every state of every run, a leader and a running follower of no newer term: one heartbeat and then exactly two deliveries for each step from `next_index` back to where the logs part, and two more, leave the leader as it was and the follower with all its log, `match_index` being exactly its length, and touch no other node |
| CatchUpRuns.FollowerCanCommit | groundhog/raft/node.py:340-345 | One more heartbeat and its delivery leave the follower committed and applied up to the leader's commit index, or its own if that was more, with the leader's store if it was not |
| CatchUpRuns.PairedArePartners | groundhog/raft/node.py:487-504 | In every run such a pair has matching logs and a usable `next_index`, and the leader credits the follower with no more than it has |
| CatchUp.WalkBackEnds | groundhog/raft/node.py:364-375 | For any two such nodes, in a run or not: the number of exchanges until the follower's log begins with the leader's is exactly the distance from `next_index` back to where the logs part, and one; `match_index` is then the length of that log, or what it was if that was more |
| CatchUp.Refused | groundhog/raft/node.py:487-504 | A refusal lowers `next_index` by exactly one and changes neither log, and none happens at the sentinel |
| CatchUp.MergedBeginsWith | groundhog/raft/node.py:322-334 | Rules 3 and 4 leave a log that begins with the leader's whole log, comparing terms only |
| Checkers.ElectionSafety.Observe | groundhog/invariants/safety.py:40-48 | Reports exactly when a leader in view shares its term with another, in view or remembered, and names the two; otherwise remembers every leader in view, and never forgets one |
| Checkers.LogMatching.Observe | groundhog/invariants/safety.py:64-92 | Silent exactly when every pair of logs matches in full: same term at an index means everything up to it is identical; a report names the first shared term after the two logs part, and where they part |
| Checkers.LogMatching.Scan | groundhog/invariants/safety.py:71-91 | The scan past the first divergence finds a clash exactly when matching fails, and then the first one |
| Checkers.MatchingPastDivergence | groundhog/invariants/safety.py:51-60 | Looking past the first difference for a shared term decides the whole property |
| Checkers.LeaderAppendOnly.Observe | groundhog/invariants/safety.py:108-125 | Reports exactly when a leader lost something it was seen with, and names such a one; forgets whoever no longer leads |
| Checkers.LeaderCompleteness.Observe | groundhog/invariants/safety.py:146-168 | Silent only if every leader not yet checked holds all entries ever seen committed; objects only to one that does not, with the first entry that it lacks |
| Checkers.StateMachineSafety.Observe | groundhog/invariants/safety.py:188-210 | Silent exactly when all that is applied is in the logs and agrees, among the nodes and with what was seen before, and then remembers all of it; a report names who applied what wrongly |
| Checkers.MonotonicProgress.Observe | groundhog/invariants/safety.py:227-246 | Reports exactly when a running node applied past its commit index or lowered it, and says which; otherwise remembers the commit index of every running node and nothing of the others |
| Watching.ElectionSafetyQuiet | groundhog/invariants/safety.py:40-48 | No run makes the election checker report |
| Watching.AppendOnlyQuiet | groundhog/invariants/safety.py:108-125 | No run makes the append-only checker report, observed after every event |
| Watching.LogMatchingQuiet | groundhog/invariants/safety.py:64-92 | No state of any run makes the log checker report |
| Watching.StateMachineSafetyQuiet | groundhog/invariants/safety.py:188-210 | No run makes the state-machine checker report |
| Watching.ProgressQuiet | groundhog/invariants/safety.py:227-246 | No run makes the progress checker report |
| Watching.HoldsAllIffNoneNewer | groundhog/invariants/safety.py:153-168 | A leader's log holds every entry seen committed if and only if none of them is of a term after the leader's |
| Watching.ObjectsToStaleWins | groundhog/invariants/safety.py:153-168 | The leader-completeness checker objects to a leader exactly when the leader is new to it and leads a term older than something committed |
| Watching.Invariants.Observe | groundhog/invariants/base.py:126-143 | All six in the registry's order, at stride 1: a problem is reported if and only if the event was such a stale win |
| Watching.Watch | groundhog/invariants/base.py:126-143 | Over a whole run the checkers stay silent exactly when it has no stale win, and stop at the first one otherwise |
| Wal.ReplayEntries | groundhog/raft/persist.py:86-98 | Replaying the records of some entries appends exactly those entries |
| Wal.ReplayAppend | groundhog/raft/persist.py:77-102 | Replaying a log in two parts is replaying it whole |
| Persist.RecordRoundTrip | groundhog/raft/persist.py:58-69 | A record within its field widths reads back as it was, if and only if it is not a vote for the id that stands for null |
| Persist.RecordEncodes | groundhog/raft/persist.py:40-69 | Exactly the records with numbers below 2^64 and a command that encodes have an encoding: a byte for the kind, two numbers of eight bytes, and for an entry the command |
| Persist.ReplayRecords | groundhog/raft/persist.py:77-102 | The loop rebuilds what the decoded records replay to, and fails exactly when some record does not decode |
| RaftStorages.RaftStorage.AppendEntries | groundhog/raft/persist.py:119-122 | All the entries' records are written after what was there, or the call failed, with a disk error exactly if the disk is not up or the write was drawn to fail, and all of them or none count as attempted |
| RaftStorages.RaftStorage.Recover | groundhog/raft/persist.py:131-133 | Recovery gives the term, vote and log that the kept records replay to |
| Disk.SurvivingRecords | groundhog/sim/disk.py:147-172 | Whatever byte a crash cuts at, what decodes is a prefix of the records attempted that holds all records synced, and it re-encodes to a prefix of the image |
| Disk.SimStorage.Append | groundhog/sim/disk.py:93-109 | A failed write leaves exactly the drawn part of its bytes, an oversized record none; the disk then refuses everything until it recovers, and the call raises for no other cause |
| Disk.SimStorage.Sync | groundhog/sim/disk.py:111-114 | Afterwards every byte and every attempted record is durable |
| Disk.SimStorage.CrashAfter | groundhog/sim/disk.py:147-162 | Exactly the durable bytes and the chosen number of the others survive; a number out of range is refused and changes nothing |
| Disk.SimStorage.Crash | groundhog/sim/disk.py:135-145 | What is durable survives, and of the rest exactly as much as was drawn, or nothing |
| Disk.SimStorage.Restart | groundhog/sim/disk.py:164-172 | Recovery keeps a prefix of what was attempted, at least all that was synced, and repairs the image to exactly its encoding |
| Disk.SimStorage.TruncateFrom | groundhog/sim/disk.py:120-128 | Records and durable watermark are cut together, at the offset a fresh scan would report |
| Disk.SimStorage.ReadAll | groundhog/sim/disk.py:116-118 | The cached scan reads back exactly the records attempted |
| Disk.SimStorage.DurableRecords | groundhog/sim/disk.py:178-184 | What a crash now would leave at least is a prefix of what was attempted that holds all that was synced |
| Codec.DecodePrefix | groundhog/codec.py:62-92 | Any byte prefix of an encoded log decodes to exactly the records wholly inside it, for every checksum function |
| Codec.DecodeReencodes | groundhog/codec.py:62-92 | Re-encoding what arbitrary bytes decode to gives back the bytes it was decoded from |
| Codec.DecodeFrames | groundhog/codec.py:58-92 | Decoding an encoded log gives its records |
| Codec.WholeFramesInside | groundhog/codec.py:62-92 | The count of whole records is the largest whose encoding fits in the cut |
| Codec.RecognisedIffFramed | groundhog/codec.py:62-92 | Bytes begin with a record if and only if they begin with its frame and it is within the bound |
| Codec.FrameLayout | groundhog/codec.py:51-55 | A frame is four bytes of length and four of a checksum over length and payload, most significant first, and the payload; more than 64 MiB is refused |
| Codec.DecodeRecords | groundhog/codec.py:62-92 | The loop computes records, offsets, valid and discarded bytes of that decoding, and never fails |
| Storage.FileStorage.IndexAgreesWithRescan | groundhog/storage.py:72-124 | After any operations a fresh scan of the file reports exactly the records, offsets and end held in memory |
| Storage.FileStorage.constructor | groundhog/storage.py:72-86 | Opening keeps exactly the decodable prefix of whatever the file held and cuts off the rest |
| Storage.FileStorage.Append | groundhog/storage.py:88-103 | The index grows by the new records with their offsets; an oversized record changes nothing |
| Storage.FileStorage.TruncateFrom | groundhog/storage.py:115-124 | File and index are cut at the same record; an index out of range is refused |
| StorageTwins.SameCalls | tests/test_storage.py:1-6 | Any sequence of appends, truncations, syncs and reads ends alike, call by call, on a file and on a simulated disk that does not fail, with the same records and the same bytes in the end |
| StorageTwins.SameAfterCrash | groundhog/storage.py:72-86 | Whatever a crash leaves of the simulated disk, recovering it and opening what is left as a file give the same records and bytes |
| Bytes.UnpackPack | groundhog/raft/persist.py:40-42 | A number that fits its width is read back from its big-endian bytes |
| Kv.CommandRoundTrip | groundhog/kv.py:51-72 | A command that encodes decodes to itself |
| Kv.CommandEncodes | groundhog/kv.py:51-58 | Exactly puts and deletes with a key below 64 KiB and a value below 4 GiB encode: the operation, the two lengths, the key and the value |
| Kv.CommandReencodes | groundhog/kv.py:51-72 | Bytes that decode to a command are that command's encoding |
| Kv.Rebuild | groundhog/kv.py:84-90 | The loop rebuilds the store the decoded commands build, and fails exactly when one does not decode |
| Log.FoldRebuilds | groundhog/kv.py:84-97 | Rebuilding from the encoded commands of a log gives the store the log builds |
| Log.RaftLog.Append | groundhog/log.py:100-106 | Adds the entries before the first one that does not follow, and raises ValueError exactly when there is such a one; indices stay contiguous |
| Log.RaftLog.TruncateFrom | groundhog/log.py:108-117 | Leaves the entries before the index, or the whole log if it is shorter; index 0 is refused and changes nothing |
| Log.RaftLog.TermOf | groundhog/log.py:72-87 | The term of an entry, 0 at the sentinel, and IndexError exactly past the end |
| Log.LastWriteWins | groundhog/kv.py:92-97 | A key is in the store of a log exactly when the last command naming it is a put, and then with that value |
| Log.FoldCounts | groundhog/kv.py:92-97 | A store's count is the number of commands that built it |
| Events.EventQueue.Pop | groundhog/sim/event.py:99-105 | Returns the live event of least `(tick, seq)` and removes it alone, however many cancelled events lie in the heap; None exactly when nothing is live |
| Events.EventQueue.PeekTick | groundhog/sim/event.py:107-110 | Agrees with the next pop and changes no live event |
| Events.EventQueue.Pending | groundhog/sim/event.py:112-114 | Is exactly the sequence that draining the queue would return |
| Events.EventQueue.Cancel | groundhog/sim/event.py:95-97 | Removes the event with that number if it is live, and says whether it was |
| Events.EventQueue.Schedule | groundhog/sim/event.py:71-93 | Adds one live event under a number never used before; a negative tick is refused |
| Events.DrainedIsSorted | groundhog/sim/event.py:112-114 | Draining returns every live event once, in strictly increasing `(tick, seq)` |
| Events.EventQueue.Size | groundhog/sim/event.py:67-69 | Counts live events only |
| Clocks.SimClock.After | groundhog/clock.py:78-89 | Schedules exactly `delay` from now and keeps everything live at or after now; a negative delay is refused |
| Clocks.SimClock.AdvanceTo | groundhog/clock.py:91-99 | Raises exactly when time would move backwards |
| Simulators.Simulator.Next | groundhog/sim/world.py:91-114 | Runs the least live event, moves the clock to it, and the clock never refuses |
| Simulators.Simulator.Run | groundhog/sim/world.py:91-128 | Given what each event's action asks for, the run does all of it and no more: agenda, trace and clock are exactly what those requests give; it raises exactly if the last event's action asked for a negative delay, and stops otherwise only with nothing live, with only later events, or with its steps used up |
| Simulators.Simulator.NothingIsLost | groundhog/sim/world.py:91-114 | Every event ever scheduled has run exactly once, or was cancelled and never ran, or is still to come |
| Simulators.Simulator.RequestIsKept | groundhog/clock.py:78-89 | Whatever an action that ran asked to be done after a delay is scheduled at exactly that tick, and has run, was cancelled or is still to come |
| Simulators.CancelIsHeeded | groundhog/sim/event.py:95-97 | A cancellation that an action reaches takes its event off the agenda for good, unless it has run |
| Simulators.OnlyAskedIsCancelled | groundhog/sim/event.py:95-97 | Nothing else is ever cancelled |
| Networks.SimNetwork.Arrive | groundhog/sim/net.py:190-207 | What is delivered was sent, to a running node not cut off from the sender; a hung node has it kept, and everything else is dropped |
| Networks.SimNetwork.SetState | groundhog/sim/net.py:142-150 | Waking a hung node reschedules all it missed in arrival order; crashing it discards that |
| Networks.SimNetwork.Send | groundhog/sim/net.py:163-178 | One packet in flight, two if duplicated, none if lost; an unknown receiver is refused |
| Networks.CutsApart | groundhog/sim/net.py:77-80 | A two-way cut blocks exactly the pairs it separates; a one-way cut blocks one direction of them |
| Faults.Split | groundhog/sim/faults.py:164-176 | Side A is those picked, exactly as many as were drawn, and side B those left; the two are disjoint, together all nodes, and neither is empty |
| Faults.EveryCutCanBeDrawn | groundhog/sim/faults.py:164-176 | Every division of the nodes into two sides that are not empty is drawn by some picks |
| Faults.GeneratePartitions | groundhog/sim/faults.py:186-202 | Every partition begins after the drawn gap from the end of the one before, lasts as long as drawn and cuts the nodes as drawn; all begin before the horizon, and the next would not have |
| Faults.GenerateOutages | groundhog/sim/faults.py:204-215 | However the outages of all nodes are sorted together, those of each node are exactly the timeline drawn for it, crash or hang as drawn, and nobody else has any |
| Faults.InsertedOnNode | groundhog/sim/faults.py:214-215 | Sorting in an outage later than its node's others puts it after them and leaves every other node's as they were |
| Faults.TimelineHolds | groundhog/sim/faults.py:188-212 | However it is drawn, a timeline has one episode at a time, each over by at least the shortest gap before the next, and no quiet spell up to the horizon longer than the longest gap |
| Faults.OneTimeline | groundhog/sim/faults.py:188-212 | The draws determine the timeline |
| Faults.WrongWhileActive | groundhog/sim/faults.py:250-284 | At every tick the armed events leave the network split, and each node down or hung, as the one active episode says, or not at all |
| Faults.ArmedInOrder | groundhog/sim/faults.py:250-261 | The armed events fire in the order in which they were armed |

## Left out

- Time in the step system: any running node may time out at any moment. `Timers` follows which election timers are running, not when they go off, and the heartbeat timer is not followed, so nothing says how soon a leader is elected, nor that the timers' spread ever makes a campaign end before the next begins.
- Timers.LeaderIffArmed: speaks of states in which nothing on the network can arm a timer or win a vote; with such packets about, what comes of them is `Elections.CanBeElected` or any other continuation.
- RaftNodes.RaftNode.OnRequestVote: requires that no candidate is called 0, the id that stands for "no vote" on disk; `Theorems.EveryPacketIsHandled` shows that no run sends one.
- Log.RaftLog.constructor: requires entries without gaps instead of raising; `RaftStorages.RaftStorage.Recover` tests that before it builds a log, and `Theorems.EveryCutReplays` shows that it holds.
- RaftClusters.RaftCluster.OnMessage: once a record could not be encoded it says only that, because the error ends the run.
- The wiring of `SimNetwork` to the node objects: the cluster takes any packet that was ever sent, and `Networks.SimNetwork.Arrive` delivers none that was not, but no one member joins the two.
- Field widths: terms, indices and ids are unbounded in the step system; a value too wide for its field, or a record above 64 MiB, makes the encoder raise, which `SimNodes.SimNode.OnMessage` reports as the end of the run.
- The error that `struct` raises on a value out of range is not told apart from `ValueError`.
- Disk.SimStorage.CachedScan: says nothing of `discarded_bytes`, because after `restart` the cache describes the image before it was trimmed.
- Checkers.MonotonicProgress.Observe and the other checkers return what went wrong as a value, not as text.
- Watching.Invariants.Observe: a stride above 1 and carrying on after a violation are not modelled.
- Events.EventQueue.PopHeap: `heapq` is modelled by its promise, the least entry is taken out; how its array is arranged is not.
- Simulators.Simulator.Run: bounded by a number of steps, because actions that keep scheduling with no delay need not end; an action is any function from the trace so far to requests to schedule and to cancel, and the hooks after each event are left out.
- Networks.SimNetwork.Arrive: packets in flight arrive in any order; latency ticks are not modelled, and `describe` and trace records are left out.
- Faults.Split: the sides are sets, so their sorting for the trace is left out.
- Faults.GeneratePartitions: requires that gap and duration are not both zero at the least, where the code would loop for ever.
- Faults.WrongWhileActive: is about one thing that goes wrong, the network or one node; the injector's calls on the node objects are the crashes and restarts of the step system, which may happen at any time.
- The Mersenne Twister: every draw is given from outside, any value in its range; in which order the draws are taken from the stream is left out.
- RaftStorages.RaftStorage.Sync: what a sync costs in ticks is any number, because nothing in the node depends on it.
- CRC-32: any function from bytes to 32 bits.
- UTF-8: keys and values are held as their encoded bytes.
- Real files, buffering and `fsync`: the file is a sequence of bytes.
- The simulated client's retries, redirects and acknowledgement list; request deduplication, snapshots and membership changes are not in the code.
- The mutation option, the command line, traces, the demo node, the naive replicator and its divergence checker.
