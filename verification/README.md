# Proofs about Spanner-RSS

A model in Dafny of the protocols and algorithms that Spanner-RSS rests on, with proofs of what
they are for. Handlers, loops and containers are modelled in the form they have in the C++ code,
as classes and methods, and each is proved to compute a function or take a step of a
specification. The theorems are about runs of those specifications.

- **Viewstamped Replication** (`Vr*.dfy`, `Quorums`, `QuorumSets`). `VrReplica` says what each
  handler does to a replica, `VrServer` has the same handlers with the loops, the log
  (`VrLogStore`) and the quorum sets of the C++ code, and `VrProtocol` is a group of 2f + 1
  replicas over a network that loses, duplicates and reorders messages. A failed assertion or a
  Panic is part of the model: it stops the replica. `VrInvariant`, `VrSteps`, `VrHandlers` and
  `VrViewChange` prove an invariant for every event, `VrSafety` that what is chosen survives
  every view change, and `VrRuns` and `VrHistory` what follows for runs. These results are about
  *careful* runs, in which a leader that counts acknowledgements commits only up to an entry
  stamped with its own view. The code does not check this, and `VrLostCommit` has a run of three
  replicas that, without it, executes two different first requests. Runs without a view change
  are always careful (`VrQuiet`). `VrTransfer` is state transfer, and `VrTransferRuns` proves
  the same results for runs in which it stays within a view; in `VrStaleTransfer` a replica
  hands on an entry left over from an older view, and two replicas disagree. `VrTable` is the
  client table that every replica keeps, and `VrClients` says what it is for. `VrAsserts` says
  on which conditions a message, a client's request or the batch timer makes an assertion fail,
  that on the client table included, and `VrStops` has runs to them; without a view change no
  message and no request does (`VrQuiet`). What a replica has sent before an assertion fails is
  sent. `VrDuties` says what each handler owes the other replicas, and `VrProgress` that the
  normal case gets requests executed.
- **Read-only transactions under RSS** (`Rss*.dfy`). `RssShards` is a system of shards with
  read-write transactions that prepare, are decided and finish, and one read-only transaction;
  `RssSession` is what its client collects. `RssServer` and `RssClient` have the loops. The
  theorems say that the snapshot a client decides on is final, consistent, the least possible,
  and, with the values read, independent of the order of replies, that the client waits for
  nothing but outcomes (`RssProgress`), and that what has ended for its own client before the
  read begins is not missed (`RssRecency`), which is what the nonblock timestamps are for. One
  thing is in the way: loaded versions carry identifier 0, which client 0 gives to its first
  transaction, and FindCommittedKeys takes a loaded value for a sign that a reported transaction
  0 has committed. `RssStands.StandsExactly` says exactly when a decision stands all the same,
  whatever happens after it: a condition on the whole system, of which `Unmistaken` is the part
  that a client could check. `RssCorners` has a run for each way in which it does not. The
  consistency theorems of `RssTheorems` are about runs in which FindCommittedKeys meets no
  loaded value while transaction 0 is reported; that a decision is final, that its snapshot is
  the least possible, and what the client waits for need no hypothesis.
- **Inconsistent Replication** (`Ir*.dfy`). The record merge of a view change with its quorum
  counting, for every f, and the client's consensus operation as a machine over replies,
  confirms and timers. A result returned on the fast path leaves a timer running that may decide
  anew: `IrRequest.FinalizesAgree` and `DisagreesOnEarlierView` say when this is harmless, and
  `IrRequest.LateDecisionDisagrees` shows that it not always is.
- **Optimistic concurrency control** (`Occ*.dfy`). Serializability over every run of Prepare,
  Commit and Abort, and the two indexes that stand for all prepared transactions.
- **Transports** (`Tcp*.dfy`, `Udp*.dfy`). Frames on a stream, independent of how the stream is
  cut; fragments in datagrams, under loss, duplication and reordering. A fragment of an older
  message than the one being put together fails an assertion of the receiver; nothing else that
  is sent does.
- **hashlittle** (`Lookup3*.dfy`). Three ways to read a key that give one hash; mixing that
  never merges two states.

The results are in `VrRuns`, `VrTransferRuns`, `VrHistory`, `VrQuiet`, `VrAsserts`, `VrStops`,
`VrStaleTransfer`, `VrProgress`, `VrDuties`, `VrClients`, `RssTheorems`, `RssRecency`,
`RssStands`, `RssProgress`, `IrMerge`, `IrRequest`, `OccRuns`, `TcpFrames`, `UdpFrames` and
`Lookup3`; the other modules carry the proofs. `dafny verify dfyconfig.toml` checks everything.

## Model

| member | source | states |
|---|---|---|
| Quorums.QuorumsMeet | src/lib/configuration.cc:334 | any two quorums of f + 1 among 2f + 1 replicas share a replica |
| VrSafety.NewestVoteHasChosen | src/replication/vr/replica.cc:1020-1035 | the newest, by last entry view and opnum, of any f + 1 votes contains whatever f + 1 replicas held in the view it was appended in |
| VrSafety.ChosenSurvives | src/replication/vr/replica.cc:984-1123 | an entry appended in view v and held by f + 1 replicas in v is, with everything below it, in the log that every later view starts from |
| VrSafety.LogsMatch | src/replication/vr/replica.cc:1037-1066 | in reachable histories equal views at one opnum mean equal logs up to that opnum |
| VrViewChange.InstalledWhole | src/replication/vr/replica.cc:1037-1066 | truncating to the last opnum of a sender and installing the suffix it sent yields its whole log |
| VrViewChange.LatestIsNewest | src/replication/vr/replica.cc:1016-1035 | the selection loop finds a maximum: no collected message, and not the own log, is newer |
| VrViewChange.DecidedWins | src/replication/vr/replica.cc:1011-1066 | what the new leader decides for is the newest of a quorum of votes, its own log included |
| VrViewChange.QuorumLeads | src/replication/vr/replica.cc:1011-1120 | a quorum of DoViewChange messages turns the replica into the leader of the view with the log that wins, and its StartView carries it |
| VrViewChange.DoViewChangeStepOK | src/replication/vr/replica.cc:984-1123 | handling DoViewChange keeps the invariant of the group |
| VrViewChange.StartViewStepOK | src/replication/vr/replica.cc:1125-1176 | handling StartView keeps the invariant of the group |
| VrHandlers.PrepareStepOK | src/replication/vr/replica.cc:599-686 | handling Prepare keeps the invariant: duplicates, gaps and overlapping batches included |
| VrHandlers.AckedIsHeld | src/replication/vr/replica.cc:722-754 | f acknowledgements and the leader make a quorum that has held the opnum in the view |
| VrHandlers.StartViewChangeStepOK | src/replication/vr/replica.cc:921-982 | handling StartViewChange keeps the invariant: what a replica offers is the vote it is held to |
| VrRuns.StepOK | src/replication/vr/replica.cc:389-459 | every careful event, delivery or timer, keeps the invariant |
| VrRuns.RunOK | src/replication/vr/replica.cc:461-1176 | the invariant holds at the end of every careful run, for every f, with loss, duplication and reordering; state transfers are in VrTransferRuns.GroupRunOK |
| VrRuns.Agreement | src/replication/vr/replica.cc:141-192 | any two replicas have executed sequences of requests of which one is a prefix of the other |
| VrRuns.LogMatching | src/replication/vr/replica.cc:599-686 | the logs of any two replicas match in every state of a careful run |
| VrRuns.LeaderHasExecuted | src/replication/vr/replica.cc:984-1123 | whatever any replica has executed is in the log of each leader of the same or a later view |
| VrRuns.FollowerIsPrefix | src/replication/vr/replica.cc:599-686 | a follower in normal status has a prefix of its leader's log, unless the log was left over from before an empty StartView, and then it has executed nothing |
| VrTransferRuns.TakesPart | src/replication/vr/replica.cc:845-893 | a log that begins the log of its view, and takes over received entries of that log, begins it still: whatever the entries overlap or repeat, it only grows, up to the last of them |
| VrTransferRuns.TransferStepOK | src/replication/vr/replica.cc:832-919 | taking over the answer to a request for a state transfer, within a view, keeps the invariant: with what is executed and acknowledged, and when an assertion fails on the way |
| VrTransferRuns.GroupRunOK | src/replication/vr/replica.cc:802-919 | with state transfers too the invariant holds at the end of every careful run; a replica asks when the code does, and answers and takes over at any later time, with loss, duplication and reordering, as long as it answers without entries left from an older view, and takes over in the view of the answer, as a follower in normal status |
| VrTransferRuns.TransferAgreement | src/replication/vr/replica.cc:832-919 | in runs with such state transfers any two replicas have executed sequences of requests of which one is a prefix of the other |
| VrTransferRuns.TransferLogMatching | src/replication/vr/replica.cc:832-919 | and their logs match |
| VrTransferRuns.TransferLeaderHasExecuted | src/replication/vr/replica.cc:832-919 | and whatever any replica has executed is in the log of each leader of the same or a later view |
| VrStaleTransfer.StaleTransferDisagrees | src/replication/vr/replica.cc:802-907 | a run in which a replica that has kept an entry from before an empty StartView answers with it: every commit is careful, a follower takes the entry over in its view, and two replicas end with different first requests executed |
| VrTransfer.AsksExactly | src/replication/vr/replica.cc:599-800 | a replica asks for a state transfer exactly if a message is of a later view, or is a Prepare or Commit of its own after which it lacks the opnum; it drops that message |
| VrTransfer.AnswersExactly | src/replication/vr/replica.cc:802-830 | the answer to a request for a state transfer has everything after its opnum; a replica in an older view asks instead, and one that changes views keeps silent |
| VrTransfer.TakesAsInstall | src/replication/vr/replica.cc:845-893 | taking over received entries one by one gives the log that installing them at once gives, keeps what agrees by its views, and is refused exactly if the first entry that differs is of a newer view |
| VrTransfer.TakesOverExactly | src/replication/vr/replica.cc:832-919 | a transfer of an older view is dropped; any other that does not fail an assertion leaves the replica in the view of the sender, with that log, and with what the sender has committed executed |
| VrDuties.PrepareIsAcknowledged | src/replication/vr/replica.cc:599-686 | a follower acknowledges every Prepare of its view that leaves it with the whole batch, new or known, and no other; one after a gap changes nothing |
| VrDuties.OthersDropped | src/replication/vr/replica.cc:599-800 | messages of the normal case that are of another view, or reach a replica that changes the view, change nothing and are not answered |
| VrDuties.AnnouncesExactly | src/replication/vr/replica.cc:688-755 | the leader counts a follower once, has executed up to the opnum from f on, and tells the others when there are exactly f |
| VrDuties.ExecutesToldExactly | src/replication/vr/replica.cc:757-800 | a follower executes up to the opnum of a Commit if that is new and within its log, and says nothing |
| VrDuties.AppendsExactly | src/replication/vr/replica.cc:461-575 | a leader appends a request exactly if it is a new one that the application replicates, and sends the batch exactly when it has grown to the configured size |
| VrDuties.BatchIsWhole | src/replication/vr/replica.cc:353-387 | a Prepare has every entry after the last batch, in order, and the next batch begins after it |
| VrDuties.AcknowledgesExactly | src/replication/vr/replica.cc:194-228 | acknowledged are the uncommitted opnums from the old last one on, and no others |
| VrDuties.JoinsAloud | src/replication/vr/replica.cc:921-982 | a replica joins a view change once, tells the others exactly then, and keeps the vote |
| VrDuties.OffersExactly | src/replication/vr/replica.cc:946-982 | with f votes or more a replica that is not the new leader, and no other, offers its log from the least of the reported and the own committed opnums on, with its last viewstamp |
| VrDuties.MisdirectedStops | src/replication/vr/replica.cc:626-634 | a Prepare or Commit that reaches the leader of its view, and a Prepare of the wrong size, stop the replica |
| VrDuties.WrongEndStops | src/replication/vr/replica.cc:1012-1147 | a DoViewChange that reaches a follower-to-be, and a StartView that reaches its leader, stop the replica |
| VrDuties.TimesOutExactly | src/replication/vr/replica.cc:284-304 | a replica whose view change timer fires goes for the next view and says so, unless it leads |
| VrDuties.NullCommitExactly | src/replication/vr/replica.cc:306-321 | the timer of a leader repeats how far it has executed, and nobody else's says anything |
| VrDuties.LeadsExactly | src/replication/vr/replica.cc:1070-1120 | a new leader is in the view with nothing counted yet, has executed what it or the sender of the chosen log had, and sends the others its log from the least opnum on that anybody has reported as committed |
| VrDuties.EmptyChoiceStops | src/replication/vr/replica.cc:1037-1123 | a new leader that chooses a log without entries stops exactly if it has not committed what the last message says, or that is not all of it, or the log it chose has more committed than its own has |
| VrDuties.EmptyStartStops | src/replication/vr/replica.cc:1149-1153 | a StartView without entries stops a follower that has not committed what it says, or if that is not all of it |
| VrHistory.ExecutedGrows | src/replication/vr/replica.cc:141-192 | no run at all, careful or not, takes back what a replica has executed |
| VrHistory.AgreementOverTime | src/replication/vr/replica.cc:141-192 | agreement between one replica at one time and another at any later time |
| VrHistory.ExecutedSurvives | src/replication/vr/replica.cc:984-1123 | what a replica executed at any time is ever after in the log of every leader of that or a later view |
| VrHistory.ExecutedWasHeld | src/replication/vr/replica.cc:688-755 | nothing is executed before f + 1 replicas have held it, together in one view |
| VrQuiet.QuietAgreement | src/replication/vr/replica.cc:141-192 | in runs without a view change, with no other hypothesis, any two replicas have executed prefixes of one sequence, and their logs match |
| VrQuiet.QuietIsCareful | src/replication/vr/replica.cc:688-755 | without a view change every commit is of an entry of the leader's own view |
| VrProgress.RequestIsExecuted | src/replication/vr/replica.cc:461-800 | from every state of a careful run in which the request is new to the leader, and f followers have received all closed batches and have client tables that are not ahead of the rest, there are events after which they and the leader have executed the leader's log and then the request |
| VrProgress.AloneExecutesNothing | src/replication/vr/replica.cc:688-755 | a group of one replica never executes anything, since only an acknowledgement makes the leader count |
| VrAsserts.StopsExactly | src/replication/vr/replica.cc:599-1176 | in careful runs a message between replicas stops its receiver exactly on one of five conditions of the receiver's state and the message, the client table included; every other assertion and Panic of the handlers of these messages holds |
| VrAsserts.RequestStopsExactly | src/replication/vr/replica.cc:461-575 | in careful runs a client's request stops a replica exactly if it is a new one for the leader to append, and the leader's last opnum is not the length of its log, or the request fills the batch while the first entry that no Prepare has carried is of an older view or the last batch ends beyond the log |
| VrAsserts.BatchTimerStopsExactly | src/replication/vr/replica.cc:353-387 | in careful runs closing a batch fails exactly if nothing is unsent or the first unsent entry is of an older view: no later entry can be at fault, because those of its own view come last in a leader's log |
| VrStops.StaleEntryStops | src/replication/vr/replica.cc:599-686 | a careful run to the first condition: a Prepare reaches a follower that kept an entry when it accepted an empty StartView, and has no room for the batch |
| VrStops.TableStopsPrepare | src/replication/vr/replica.cc:323-337 | a careful run to the second: a Prepare carries a request of a client whose later request the follower has prepared, because a new leader installed that one without telling its client table |
| VrStops.LateOfferStops | src/replication/vr/replica.cc:1037-1066 | a careful run to the third: a new leader that has executed nothing collects a log that begins at what everybody else has committed |
| VrStops.LateStartStops | src/replication/vr/replica.cc:1143-1170 | a careful run to the fourth: a follower that has executed nothing receives such a log in a StartView |
| VrStops.TableStopsStartView | src/replication/vr/replica.cc:194-228 | a careful run to the fifth: a StartView makes a follower acknowledge a request older than one its client table knows |
| VrStops.RequestStopsLeader | src/replication/vr/replica.cc:353-387 | a careful run in which a new leader that has installed a longer log than its own stops when it closes a batch, because EnterView has set the end of the last batch to its old last opnum |
| VrQuiet.QuietNeverStops | src/replication/vr/replica.cc:599-800 | in runs without a view change no message between replicas stops one: no assertion fails, that of UpdateClientTable included, since a follower's table knows only what is in its log, and the leader's log has increasing request ids for each client |
| VrQuiet.QuietRequestNeverStops | src/replication/vr/replica.cc:461-575 | nor does a client's request stop one |
| VrLostCommit.CarelessRunDisagrees | src/replication/vr/replica.cc:688-755 | a run of three replicas in which the leader counts acknowledgements for an entry of an older view ends with two replicas that executed different first requests |
| VrLostCommit.FollowerKeepsStaleEntry | src/replication/vr/replica.cc:1143-1170 | a run in which a follower accepts an empty StartView, keeps an entry its leader never had, and stops at the next Prepare |
| VrLog.InstallYieldsSender | src/replication/common/log-impl.h:54-85 | installing a suffix on a truncated log gives the sender's log, if the two match and agree below the suffix |
| VrLogStore.LogStore.Find | src/replication/common/log.cc:73-92 | returns the slot with that opnum if the log has it, and nothing otherwise; the assertion on its opnum holds |
| VrLogStore.LogStore.Append | src/replication/common/log.cc:52-70 | appends if and only if the opnum is the next one |
| VrLogStore.LogStore.SetStatus | src/replication/common/log.cc:95-105 | marks the entry with that opnum and changes nothing else |
| VrLogStore.LogStore.RemoveAfter | src/replication/common/log.cc:122-141 | leaves exactly the entries below the opnum; its assertions hold |
| VrLogStore.LogStore.Dump | src/replication/common/log-impl.h:36-51 | returns exactly the entries from that opnum on |
| VrLogStore.LogStore.SkipToDivergence | src/replication/common/log-impl.h:56-78 | stops at the first received entry the log does not have, with the log cut off there |
| VrLogStore.LogStore.Install | src/replication/common/log-impl.h:54-85 | leaves the log that the specification of Install describes; every assertion in Append and RemoveAfter holds on the way |
| QuorumSets.QuorumSet.AddAndCheckForQuorum | src/replication/common/quorumset.h:99-116 | a sender counts once: a later message replaces the earlier one, and a quorum is reported exactly from numRequired senders on |
| VrServer.Server.CommitUpTo | src/replication/vr/replica.cc:141-192 | executes the entries after the last committed one, in order, and keeps the reply to each unless its client has moved on; fails if and only if an entry is missing |
| VrServer.Server.UpdateClientTable | src/replication/vr/replica.cc:323-337 | enters the request as the last of its client; fails if and only if the table has a newer one |
| VrServer.Server.CloseBatch | src/replication/vr/replica.cc:353-387 | sends exactly the entries no Prepare has carried, and fails if one is of another view |
| VrServer.Server.HandleRequest | src/replication/vr/replica.cc:461-575 | takes the step of the handler the theorems speak of (drops, resends, appends with the next opnum, closes a full batch), with the reply sent at once if there is one |
| VrServer.Server.HandlePrepare | src/replication/vr/replica.cc:599-686 | takes the step of the handler the theorems speak of: new state and client table, acknowledgement, and failed assertions |
| VrServer.Server.AppendNew | src/replication/vr/replica.cc:658-673 | appends exactly the requests of the batch that the log does not have, each entered into the client table |
| VrServer.Server.HandlePrepareOK | src/replication/vr/replica.cc:688-755 | commits from f acknowledgements on, and tells the others when there are exactly f |
| VrServer.Server.HandleCommit | src/replication/vr/replica.cc:757-800 | executes up to the opnum unless it is known or the entries have not arrived |
| VrServer.Server.HandleStartViewChange | src/replication/vr/replica.cc:921-982 | joins a newer view and, with a quorum, offers its log from the least committed opnum on |
| VrServer.Server.SelectLatest | src/replication/vr/replica.cc:1016-1035 | the loop over the collected messages computes the newest offer, or keeps the own log |
| VrServer.Server.StartFrom | src/replication/vr/replica.cc:1080-1091 | the entries of StartView begin at the least opnum that anybody reported as committed |
| VrServer.Server.HandleDoViewChange | src/replication/vr/replica.cc:984-1123 | takes the step of the handler the theorems speak of, from one message to the new leader; if an assertion fails, what has been sent by then is what that step says |
| VrServer.Server.SendPrepareOKs | src/replication/vr/replica.cc:194-228 | acknowledges exactly the uncommitted opnums from the old last one on, and enters their requests into the client table; fails exactly if an entry is missing or the table knows a newer request, and then has acknowledged those before it |
| VrServer.Server.HandleStartView | src/replication/vr/replica.cc:1125-1176 | takes the step of the handler the theorems speak of, with the loops over log, acknowledgements and client table; when an acknowledgement stops it, the view is entered, what the leader has committed is executed, and the acknowledgements before it are sent |
| VrServer.Server.HandleRequestStateTransfer | src/replication/vr/replica.cc:802-830 | answers with what follows the opnum in its log, or asks itself if it is in an older view |
| VrServer.Server.TakeEntry | src/replication/vr/replica.cc:846-893 | skips, keeps, replaces or appends one received entry as the specification says; the assertions on the state of entries hold, the others are shown |
| VrServer.Server.HandleStateTransfer | src/replication/vr/replica.cc:832-919 | the loop over the entries, the view, execution and acknowledgements make the step that the theorems on state transfer speak of |
| VrClients.LeaderAppendsIncrease | src/replication/vr/replica.cc:461-575 | in every run, while a replica leads one view, what it appends for a client has strictly increasing request ids, whatever duplicates and resends arrive, and its client table knows all of it |
| VrClients.HandlerServes | src/replication/vr/replica.cc:461-800 | whatever a replica handles while it leads one view amounts, for its clients, to taking in one request or to executing its log up to some opnum |
| VrClients.OneSlotExactly | src/replication/vr/replica.cc:467-558 | over the whole log request ids increase in all continuations of a view if and only if they do so far and the client table covers the log the view started with |
| VrClients.ResentReplyIsGenuine | src/replication/vr/replica.cc:486-519 | a duplicate is answered with a reply to that very request: with the view, the opnum and the application's answer of an executed slot of it, with the answer the application gave to it at once, or with the one the view started with |
| VrClients.ResendIsAnswered | src/replication/vr/replica.cc:486-519 | once a request has been executed or answered at once, a duplicate of it gets a reply, exactly as long as the client has sent no later one |
| VrClients.AnswersAtOnce | src/replication/vr/replica.cc:521-558 | a new request is answered at once exactly if the application does so, with its answer, and a resend right after gets the same |
| VrClients.ExecutedIsAnswered | src/replication/vr/replica.cc:141-192 | after executing, the client table has for every executed slot the application's answer to it there, unless it knows a later request of the client, and is unchanged for all other clients |
| RssSession.AddValuesKeeps | src/store/strongstore/client.cc:949-969 | values are added to the list of their key, lists stay in descending order, nothing is lost or made up |
| RssSession.AddPreparesMerges | src/store/strongstore/client.cc:971-990 | merging keeps every reported write and timestamp; every one in the result was reported |
| RssClient.InsertInto | src/store/strongstore/client.cc:955-967 | the scan inserts before the first older value |
| RssClient.StrongSession.AddPrepares | src/store/strongstore/client.cc:971-990 | the loop gives the merge of the specification |
| RssClient.StrongSession.FindCommittedKeys | src/store/strongstore/client.cc:998-1034 | takes out exactly the prepared transactions some value of which was received, and adds their writes at that value's timestamp |
| RssClient.StrongSession.CalculateSnapshotTimestamp | src/store/strongstore/client.cc:1036-1054 | the snapshot is the largest, over the keys, of the oldest value received |
| RssClient.StrongSession.CheckCommit | src/store/strongstore/client.cc:1056-1114 | commits if and only if all shards have answered and, under RSS, every remaining prepare is later than the snapshot |
| RssClient.StrongSession.ReceiveFastPath | src/store/strongstore/client.cc:889-912 | takes the fast step of the snapshot theorem; fails exactly on an unexpected reply or on prepares without RSS |
| RssClient.StrongSession.ReceiveSlowPath | src/store/strongstore/client.cc:914-947 | takes the slow step of the snapshot theorem, also when the decision comes before the last fast reply |
| RssServer.Server.GetPrepareTimestamp | src/store/strongstore/server.cc:292-299 | later than anything the shard has promised or committed |
| RssServer.Server.StartRO | src/store/strongstore/transactionstore.cc:538-602 | advances the clock past the read, waits for the conflicting transactions for which a test fails, with that on the nonblock timestamp, and skips the other conflicting ones |
| RssServer.Server.Get | src/store/common/backend/versionstore.h:106-158 | the newest version at or before a timestamp |
| RssServer.Server.PutVersion | src/store/common/backend/versionstore.h:222-229 | adds the version, unless there is one of the same timestamp |
| RssServer.Server.Commit | src/store/strongstore/server.cc:1493-1553 | installs the writes at the commit timestamp, advances the clock, and forgets the transaction |
| RssServer.Server.GetROSkippedRWTransactions | src/store/strongstore/transactionstore.cc:620-659 | reports exactly the skipped transactions that are still pending, with their writes to the read keys |
| RssServer.Server.ReadValues | src/store/strongstore/server.cc:438-450 | one value for each read key of the shard, the newest the read may see |
| RssRecency.StartsExactly | src/store/strongstore/transactionstore.cc:554-597 | a read waits for a pending transaction exactly if that prepared by the time of the read, writes a key it reads, and the shard is strict, or the transaction may be in the reader's past, or its nonblock timestamp is not after the read; the other conflicts it skips |
| RssRecency.WaitsOnlyForPending | src/store/strongstore/transactionstore.cc:538-602 | what a read waits for is still pending at its shard, so that it answers when they have all ended |
| RssRecency.ReportedHasNotEnded | src/store/strongstore/transactionstore.cc:620-659 | whatever a shard has reported and not finished is after the reader's past and has a nonblock timestamp after the read: the assertion there holds |
| RssRecency.EndedIsInReply | src/store/strongstore/transactionstore.cc:538-602 | a conflict whose client may have been told of its end before the read began is over on the shard when that replies, is not reported, and if it committed by the time of the read the reply has a value at least as new |
| RssRecency.NothingEndedIsMissed | src/store/strongstore/client.cc:644-690 | and the client reads a value at least as new: what has ended for its client before a read begins is not missed |
| RssInvariant.PutIsFirstWins | src/store/common/backend/versionstore.h:222-229 | whoever writes at a timestamp first stays, nothing is lost, and there stays one version for each timestamp |
| RssInvariant.CommitsAtLatest | src/store/strongstore/transactionstore.cc:56-98 | a transaction commits at the latest of the client's start timestamp, the prepare timestamps of the participants, and the coordinator's own |
| RssInvariant.NothingToWaitFor | src/store/strongstore/client.cc:1056-1114 | with all fast replies and no transaction left the client commits, unless its snapshot is the last timestamp there is |
| RssInvariant.ServerKeeps | src/store/strongstore/server.cc:413-486 | every step keeps the invariant of the shards: a pending write is later than all versions of its key, and what may still slip below a read is waited for or reported |
| RssSnapshot.FastStep | src/store/strongstore/client.cc:889-912 | taking a fast reply keeps the invariant of the client: each reported write is waited for, known to be void, held as a value, or (only if a loaded value can be taken for one of transaction 0) struck out |
| RssSnapshot.SlowStep | src/store/strongstore/client.cc:914-947 | the same for a late decision |
| RssTheorems.BehaviourOK | src/store/strongstore/server.cc:413-549 | both invariants hold in every state of every behaviour |
| RssTheorems.DecisionStays | src/store/strongstore/client.cc:1056-1114 | the decision to commit and what it was made on are final |
| RssTheorems.SnapshotIsStable | src/store/strongstore/client.cc:1056-1114 | unless a loaded value was taken for one of transaction 0, what is read at the snapshot is, now and in every later state, the newest version of its shard at or before it, and none appears between it and the reader's past |
| RssStands.StandsExactly | src/store/strongstore/client.cc:998-1114 | for any decision: what is read of a key stands in every continuation of the run if and only if the fast value is no later than the snapshot and no struck-out write of transaction 0 can still commit by then, or what was read instead is the loaded version itself |
| RssTheorems.NoZeroUnmistaken | src/store/strongstore/client.cc:998-1034 | without a transaction 0 no loaded value is taken for one of its |
| RssTheorems.NeverHalfVisible | src/store/strongstore/client.cc:889-947 | versions of one timestamp of two read keys, as a transaction that wrote both leaves them, are visible in both or in neither, unless a loaded value was taken for one of transaction 0 |
| RssTheorems.SnapshotIsLeast | src/store/strongstore/client.cc:1036-1054 | the snapshot is the least timestamp at which the client has a value for every key |
| RssTheorems.SnapshotIsLatestFast | src/store/strongstore/client.cc:1036-1054 | it is the latest timestamp of a value in a fast reply, unless a loaded value was taken for one of transaction 0 |
| RssTheorems.SnapshotsAgree | src/store/strongstore/client.cc:889-1054 | then two orders of arrival of the same fast replies, with slow replies anywhere, end with the same snapshot |
| RssTheorems.ReadsAgree | src/store/strongstore/client.cc:889-1054 | and with the same value of every key at it, if the decisions about each transaction are the same in both |
| RssCorners.OrderMatters | src/store/strongstore/client.cc:998-1114 | if a loaded value is taken for one of transaction 0 the order does matter: the same fast replies and decisions, in two orders, end with two snapshots |
| RssProgress.WaitsForOutcome | src/store/strongstore/client.cc:1056-1114 | a client with all fast replies waits only for a reported transaction that prepared no later than the snapshot, and the shard owes or has sent the slow reply about it |
| RssProgress.ClientCommits | src/store/strongstore/client.cc:914-947 | once what was reported has ended, the slow replies make the client commit |
| RssCorners.ZeroOvertakes | src/store/strongstore/client.cc:998-1114 | a behaviour in which transaction 0, reported and struck out, commits before the snapshot after the client has committed without its write |
| RssCorners.PreparedWriteIsRead | src/store/strongstore/client.cc:998-1114 | a behaviour in which the client commits at too early a snapshot and reads a write that nobody has committed |
| IrRecords.MajorityIsUnique | src/replication/ir/replica.cc:551-569 | among f + 1 records at most one result reaches ceil(f / 2) + 1 |
| IrRecords.FastQuorumMeets | src/lib/configuration.cc:336 | at least ceil(f / 2) + 1 of any f + 1 replicas are in a given fast quorum |
| IrRecords.FastPathSurvives | src/replication/ir/replica.cc:511-578 | a result held by a fast quorum is, in the merge of any f + 1 records, adopted or the one majority of its group, for every f |
| IrRecords.ThresholdIsLeast | src/replication/ir/replica.cc:551-569 | with a lower threshold two results could both reach it among f + 1 entries |
| IrRecords.FastQuorumIsLeast | src/lib/configuration.cc:336 | with a smaller fast quorum, fewer than the threshold of some f + 1 replicas would be in it |
| IrMerge.GroupRecords | src/replication/ir/replica.cc:513-543 | the nested loops adopt what is inconsistent or finalized, and group exactly the other entries |
| IrMerge.FindMajority | src/replication/ir/replica.cc:552-569 | counting finds the result with ceil(f / 2) + 1 entries if there is one |
| IrMerge.SplitGroups | src/replication/ir/replica.cc:545-578 | d has exactly the groups with such a majority, with it, and u the others |
| IrMerge.MergeBack | src/replication/ir/replica.cc:594-613 | adds one entry for each operation of d and u, finalized in the view of the replica, with the type and request of the first entry of its group and the application's result; no Add meets an operation already there, and the result has exactly the operations of the records |
| IrMerge.IrReplica.IrMergeRecords | src/replication/ir/replica.cc:481-615 | merges exactly the records of the latest normal view, the own one moved out if it is among them; fails only if a record is missing, if the application does not name exactly the operations of d and u, or if there is something to merge and no message |
| IrMerge.MergedIsSettled | src/replication/ir/replica.cc:594-613 | nothing stays tentative: every entry of the merged record is inconsistent or finalized, under its own id, with the type and request that some merged record has for it; what none had settled is finalized, in the view of the replica, with the application's result |
| IrMerge.MergedIsFinal | src/replication/ir/replica.cc:513-613 | with the merged record among the latest, a later merge puts no operation of it into d or u again |
| IrMerge.OrderDoesNotMatter | src/replication/ir/replica.cc:511-578 | whatever the order of the records, d, u, the majority results and the merged operations are the same |
| IrMerge.FastPathInMerge | src/replication/ir/replica.cc:481-615 | the result of a fast quorum is the result in the merged record, if the application keeps the majorities it is given |
| IrMerge.MergeKeepsFastPath | src/replication/ir/replica.cc:481-615 | so it is in whatever IrMergeRecords returns, for the records it took from the messages and its own |
| IrRequest.FinishesOnce | src/replication/ir/client.cc:196-331 | over every order of replies, confirms and timers the application is called back at most once, and once before the request is gone |
| IrRequest.FastResultIsBacked | src/replication/ir/client.cc:269-331 | a result returned on the fast path was reported identically by a fast quorum in one view |
| IrRequest.SlowResultIsConfirmed | src/replication/ir/client.cc:512-556 | when a request is over, f + 1 replicas have confirmed in one view; unless it was answered on the fast path, the application has been told the decided result, or of an error if the view is not the one it was decided in; and what was decided was reported as final there, or is the application's choice among a quorum of replies of that view |
| IrRequest.EndsExactly | src/replication/ir/client.cc:512-556 | a request is over if and only if f + 1 replicas have confirmed in one view |
| IrRequest.ResendsUntilConfirmed | src/replication/ir/client.cc:334-358 | when the resend timer fires the client sends again what it last sent to be finalized, exactly until f + 1 replicas have confirmed in one view |
| IrRequest.ActsOnQuorums | src/replication/ir/client.cc:459-510 | the client never sits on enough replies of one view without sending a Finalize |
| IrRequest.FinalizesAgree | src/replication/ir/client.cc:196-267 | every Finalize carries the returned result if and only if the timer has not fired since, or the application decides for that result again, on the returning view, where all replies agree, or on an earlier one |
| IrRequest.DisagreesOnEarlierView | src/replication/ir/client.cc:196-267 | if the application decides for what all replies report, disagreement means exactly that the timer has fired, an earlier view had a quorum of replies, and the application decided on those for something else |
| IrRequest.LateDecisionDisagrees | src/replication/ir/client.cc:196-267 | a run in which the application is told one result and a Finalize says another |
| IrClient.Consensus.HandleConsensusReply | src/replication/ir/client.cc:459-510 | takes a step of the request machine |
| IrClient.Consensus.FindMatch | src/replication/ir/client.cc:280-310 | finds a result that a fast quorum agrees on if there is one |
| IrClient.Consensus.CheckForQuorum | src/replication/common/quorumset.h:86-97 | finds the lowest view with a quorum of replies if there is one |
| IrClient.Consensus.TransitionToConsensusSlowPath | src/replication/ir/client.cc:196-215 | takes a step of the request machine |
| IrClient.Consensus.HandleConfirm | src/replication/ir/client.cc:512-556 | takes a step of the request machine |
| IrClient.Consensus.ResendConfirmation | src/replication/ir/client.cc:334-358 | takes a step of the request machine: sends the decided result again |
| OccRuns.Serializable | src/store/strongstore/occstore.cc:65-172 | after any run the store has of each key exactly what the last commit that writes it has written, at its timestamp, or the initial version; and each commit had read, of each key, the last version written before it, where there is one |
| OccRuns.CommitsExactly | src/store/strongstore/occstore.cc:148-172 | the commits are those events that found their transaction prepared, in order, with that transaction and the timestamp of the event |
| OccRuns.PreparedExactly | src/store/strongstore/occstore.cc:65-172 | a transaction is prepared exactly from the Prepare that admitted it until the next Commit or Abort of its identifier |
| OccRuns.PrepareAnswers | src/store/strongstore/occstore.cc:65-146 | Prepare says ok exactly if the identifier is prepared afterwards; it keeps a transaction that is prepared already, and changes nothing else |
| OccRuns.ReadsAreStable | src/store/strongstore/occstore.cc:65-146 | while a transaction is prepared nothing it has read changes, not even from absent to present |
| OccRuns.PrepareSound | src/store/strongstore/occstore.cc:65-146 | Prepare admits no transaction that conflicts with a prepared one or has read an old version |
| OccRuns.PrepareExactly | src/store/strongstore/occstore.cc:65-146 | Prepare admits a transaction if and only if it can stand beside all prepared ones and the store |
| OccRuns.CommitInstalls | src/store/strongstore/occstore.cc:148-165 | a commit gives each key that the transaction writes its value at the commit timestamp, and leaves every other key |
| OccStore.Store.Prepare | src/store/strongstore/occstore.cc:65-146 | deciding by the two indexes is deciding by all prepared transactions |
| OccStore.Store.PrepareTransaction | src/store/strongstore/occstore.cc:180-192 | the loops keep the indexes equal to what they stand for |
| OccStore.Store.Commit | src/store/strongstore/occstore.cc:148-165 | each key that the transaction writes gets its value at the commit timestamp, every other key stays as it is, and the transaction goes from every index |
| OccStore.Store.Clean | src/store/strongstore/occstore.cc:194-234 | erases exactly one transaction from the indexes, and leaves no empty set |
| TcpFrames.ChunksDoNotMatter | src/lib/tcptransport.cc:737-811 | however a stream is cut into reads, what is dispatched and what is left are those of reading it at once |
| TcpFrames.StreamArrives | src/lib/tcptransport.cc:737-811 | for any beginning of a stream of messages, in any chunks, exactly the messages wholly received are dispatched, in order, and the rest is a proper prefix of the next frame |
| TcpFrames.StreamRoundTrip | src/lib/tcptransport.cc:449-486 | everything sent is received, and nothing else |
| TcpFrames.ParsesExactly | src/lib/tcptransport.cc:737-811 | for any bytes: a message is dispatched if and only if they begin with a frame of it, which may have more at its end than its fields account for, and what follows the frame is left |
| TcpFrames.WaitsExactly | src/lib/tcptransport.cc:742-779 | for any bytes: the reader waits if and only if they may be the beginning of a frame below the limit |
| TcpFrames.FrameBegins | src/lib/tcptransport.cc:449-486 | the bytes that a frame begins with, little end first |
| TcpFrames.TooLongIsRefused | src/lib/tcptransport.cc:762-772 | a frame of the limit or more is refused as soon as its length is there |
| TcpTransport.BuildFrame | src/lib/tcptransport.cc:449-486 | the buffer holds the frame; its assertion fails exactly for empty data |
| TcpTransport.Reader.TCPReadableCallback | src/lib/tcptransport.cc:737-811 | one call dispatches all that can be, and keeps the rest |
| UdpFrames.SessionRoundTrip | src/lib/udptransport.cc:556-635 | messages sent one after the other, whole or in fragments, are dispatched once and in order when no packet is lost or overtaken |
| UdpFrames.FragmentsRebuild | src/lib/udptransport.cc:593-627 | the fragments of a message, in order, rebuild it, also after an older message was cut off |
| UdpFrames.RebuiltExactly | src/lib/udptransport.cc:781-816 | fragments of one message, repeated, overtaken or lost in any way: it is put together if and only if all of them arrive in order, whatever others of them come between |
| UdpFrames.DecodesExactly | src/lib/udptransport.cc:659-693 | for any bytes: they decode to a message if and only if they are a body of it, which may have more at its end than its fields account for |
| UdpFrames.PlainExactly | src/lib/udptransport.cc:744-761 | for any packet with the plain magic number: it is dispatched as a message if its rest is a body of one, and fails an assertion otherwise |
| UdpFrames.CompletedExactly | src/lib/udptransport.cc:801-811 | what has been put together is dispatched if it is a body of a message, and fails an assertion otherwise |
| UdpFrames.MalformedFragmentFails | src/lib/udptransport.cc:762-780 | a fragment without data, or with another length than its header implies, fails an assertion |
| UdpFrames.OtherPackets | src/lib/udptransport.cc:744-822 | a packet without a known magic number is ignored, and one no longer than a magic number fails an assertion |
| UdpFrames.FragmentCount | src/lib/udptransport.cc:584-605 | a message goes in one packet if it fits 9000 bytes, and otherwise in as few fragments of 9000 bytes as its body needs |
| UdpFrames.PacketsBegin | src/lib/udptransport.cc:511-635 | the bytes that each kind of packet begins with, little end first |
| UdpFrames.NothingMadeUp | src/lib/udptransport.cc:762-816 | whatever is lost, duplicated or overtaken, a receiver that gets through it has dispatched only messages that were sent |
| UdpFrames.FailsExactly | src/lib/udptransport.cc:781-794 | of the packets a sender sends, exactly the fragments older than the message being put together fail an assertion |
| UdpFrames.BodyDecodes | src/lib/udptransport.cc:659-693 | a serialized message decodes to itself |
| UdpTransport.SerializeMessage | src/lib/udptransport.cc:511-554 | the buffer holds the packet; its assertion fails exactly for empty data |
| UdpTransport.Transport.SendMessage | src/lib/udptransport.cc:556-635 | one packet, or fragments under a new id, that together make the message |
| UdpTransport.Transport.ProcessPacket | src/lib/udptransport.cc:744-816 | takes the receiver's step for that sender, and leaves the state of the others |
| Lookup3.UnmixMix | src/lib/lookup3.cc:87-95 | mix can be undone |
| Lookup3.UnfinalFinal | src/lib/lookup3.cc:122-132 | final can be undone |
| Lookup3.OneBlockNeverCollides | src/lib/lookup3.cc:162-331 | two keys of equal length that differ in exactly one 12-byte block never end with the same three words |
| Lookup3.KnownAnswers | src/lib/lookup3.cc:162-331 | the published answers: the hash of the empty key, and of "Four score and seven years ago" |
| Lookup3Paths.HashWords | src/lib/lookup3.cc:171-237 | the path of 32-bit reads, with its masked tail, gives the hash of the bytes |
| Lookup3Paths.HashHalves | src/lib/lookup3.cc:239-284 | the path of 16-bit reads gives the same hash |
| Lookup3Paths.HashBytes | src/lib/lookup3.cc:286-331 | the path byte by byte gives the same hash |
| Lookup3Paths.HashLittle | src/lib/lookup3.cc:162-331 | alignment and byte order decide how the key is read and never what comes out |

## Left out

- Agreement: careful runs only, as are the other results of `VrRuns` and `VrHistory` that name `Careful`. The condition rules out the whole family of lost commits, but it is not necessary: a careless commit does no harm when no later view loses the entry, which depends on every message still to come.
- VrRuns.RunOK: without state transfer (replica.cc:230-255, 802-919), which `VrTransferRuns` adds, as far as it stays within one view; the same holds of all results about `Run`. The handler checks no status, and a replica that enters a higher view with it keeps what its log has beyond the received entries. `VrStaleTransfer` shows what a sender with entries from an older view does; a leader that takes a transfer over acknowledges to itself (replica.cc:907), and would be counted twice.
- VrTransferRuns.GroupRunOK: the replay of pendingPrepares loops over a list just cleared (replica.cc:909-918), so a Prepare of a later view or after a gap is dropped. A request that is skipped because it was made before (replica.cc:236-243) is one that the network still has.
- VR crashes with loss of memory: nothing is persistent. A replica that fails an assertion gets no further messages.
- The chosen message in HandleDoViewChange is kept as a pointer to a copy that the loop destroys (replica.cc:1022-1035); it is read here as that message. The least of no StartViewChange messages (replica.cc:1080-1087) is an arbitrary number.
- ResendPrepare (replica.cc:339-351): sends again a message that the network of the model never forgets.
- VrProgress.RequestIsExecuted: what happens, not that it will; timers and fair delivery are choices of the run. View changes can stop at the Panics of `VrAsserts.StopsExactly`, and their completion is not stated.
- RssProgress.ClientCommits: a slow reply may be delivered again; one that overtakes the fast reply of its shard is dropped by the client (client.cc:922-927).
- VR hashing of the log: the replica builds its log with hashing off.
- VrClients.OneSlotExactly: one leader in one view; what a new leader's table covers depends on what it has executed and prepared, and the code adds nothing to the table when it installs a log. The addresses of clients are not modelled.
- VrAsserts.StopsExactly: messages between replicas, but for state transfers. The batch timer of `VrAsserts.BatchTimerStopsExactly`, which in the code runs only while entries are unsent, may fire at any time.
- RSS read-write transactions: locking, wound-wait and two-phase commit are reduced to write locks held while a transaction is pending, a prepare timestamp taken with them, one decision per transaction, and a commit timestamp no less than any prepare timestamp. Reads under locks, GetForUpdate and the session barrier are not part of this model.
- RSS loaded versions are those that the server's own start-up code loads, at timestamp (0, 0) (src/store/server.cc:362, 420, 446); Server::Load would take any.
- RSS clocks: TrueTime is an arbitrary number, and commit wait, which is about real time, is left out. So `RssRecency.NothingEndedIsMissed` is about every transaction whose nonblock timestamp is at or before the read's; that one whose client knows of its end has such a timestamp is what TrueTime and that client's wait see to.
- RSS servers keep counts of the slow replies they owe (server.cc:366-411); the model sends them as a set. Other read-only transactions only advance a shard's clock.
- IrMerge.IrReplica.IrMergeRecords: an operation id is used for one type of operation; otherwise the merge could add an operation that is already there.
- IrMerge.FastPathInMerge: an operation id is used for one type of operation, and no other result is finalized. IR's propose and finalize handlers, which do not check the status of the replica, recovery and the inconsistent and unlogged requests are not part of this model.
- IrRequest.FinishesOnce: sends succeed. A failed send erases the request while its handler still uses it (client.cc:303-320).
- OccRuns.Serializable: for keys that have a version at the commit's place in the order; Prepare does not check a read of a key without any version.
- TCP and UDP sockets, events, protocol buffers, addresses, dropped and delayed messages by configuration, and multicast. Sizes that overflow 64 bits and fragment ids that wrap around are left out.
- UDP packets shorter than their magic number, which are read past their end, are taken as a failed assertion, as are those of exactly that size, for which the check in the code does fail.
- hashbig, and the VALGRIND variant of the 32-bit path.
- SHA-1, latency statistics, persistent registers, configuration files, partitioners, the simulated transports, experiments, and everything about liveness or performance.
