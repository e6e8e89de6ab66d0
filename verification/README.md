# Verified model of the storage group and the mail front end

This project models, in Dafny, the parts of the system where several servers, several commands or several reads of a
stream have to fit together, and proves what they keep:

- **The replication protocol** (`Replication.dfy` and the modules above it). Server 1, the primary, gives every write
  its place in one order, broadcasts it, counts acknowledgements, answers the requestor with +OK, runs the checkpoint
  barrier, and sends restarted replicas what they missed. It is a transition system: one node per server, one
  first-in-first-out channel in each direction between the primary and every replica, the hold queue, `acktrack`, the
  block flags and the position of the sequencing thread. `Run(n, evs)` is the state of a group of `n` servers after any
  sequence of events; an event that is not enabled changes nothing. Beside the state it keeps a trace of what happened
  (the order given, who consumed and executed what), which no step reads. Theorems speak of every `n >= 2` and every
  sequence of events.
- **The tablet and its log** (`KeyValue.dfy`, `Accounts.dfy`, `Mailbox.dfy`, `Drive.dfy`, `DirectoryTree.dfy`,
  `WriteAheadLog.dfy`, `Logging.dfy`, `Storage.dfy`). Rows of columns that hold a mailbox and a file tree, every
  command's effect and answer, the log that each write goes through first, replay, transfer, and the decimal counter
  file. The protocol's nodes execute exactly these commands.
- **The code itself, in its own form** where it changes things in place: the storage process (`Storage.Store`), the
  log file (`Logging.LogFile`), one server's threads (`SeqConsistency.Server`), the work queue of linked items
  (`WorkQueue.Queue`), the SMTP thread (`SmtpThread.ClientHandler`), the upload loop and the header splitter. Each
  method is proved against the function whose properties the lemmas state.
- **The smaller cores**: line framing of SMTP over arbitrary reads, the SMTP command order, replies, addresses and
  message text, listing and path codecs, header splitting, and the routing of commands.

## Reading the protocol

A step is atomic, a message is received whole, and channels neither lose nor reorder. Each server has at most one client
write under way, because there is one `block_flag`; server numbers are the indices of `gserver_fd`; there are at least
two servers, and server 1 stays the primary.

Three behaviours of the code shape the theorems:

- A requestor executes its own write only when it is released, which may be after later-sequenced commits
  (seq_consistency.cc:181, 355). So two servers can execute two writes of the same user in different orders.
  `UserOrderExact` gives the exact condition under which they do not, `SettledTablet` and `ServersConverge` draw the
  conclusion for the tablets, and `ServersDiverge` is a run that ends with two different passwords for one user. When
  all writes that name one user are requested at one server, it never happens (`OneHomeConverges`).
- The primary releases its own write without waiting (seq_consistency.cc:541), and the last acknowledgement releases
  `block_flag` again (seq_consistency.cc:310), whatever write it blocks by then. `PrimaryReleasesInOrder` says exactly
  when that does no harm, `DrainedPrimaryIsInOrder` gives a condition to check before a write is taken on, and
  `EarlyRelease` is a run in which a held write is released.
- Disabling the primary clears its tablet, but it goes on sequencing and executing. What it executes, and in which
  order, is the same as if it had not been disabled, so the theorems about journals and logs hold of it in any case
  (`Steady`). Its tablet stays the replay of its log exactly when it adds no user while it is disabled
  (`PrimaryTabletIsReplay`); `StoredTwice` is a run in which it does, and a mail is stored twice.

The branch for an acknowledgement of an unknown write (seq_consistency.cc:271-277) does nothing in the model;
`AckIsTracked` shows that it is never taken. A checkpoint is due whenever the number of log entries is a multiple of
`LOG_LIMIT`, 0 included.

A checkpoint request that meets a disabled replica is answered without a checkpoint. `ReleaseFollowsCheckpoints` speaks
of the replicas it met enabled: one that was disabled then, and is enabled again between its answer and the release, is
enabled on release without that checkpoint. `SnapshotTaken` says what a checkpoint holds. The primary takes one for
every three writes (`OneInThree`) as long as it has none of its own; its own write is not yet in its log when the test
that follows it comes, so `OwnWriteSkipsCheckpoint` is a run in which four writes leave no checkpoint, and
`VersionCountsTests` is the count for all runs.

Catching up is stated twice. `LogsMeet` is about the logs as sequences. It assumes that no write of the replica or of
the primary is under way at the restart, and that neither takes one on while the replica catches up; commits may be on
their way to the replica, and other servers' writes may be sequenced before and after the transfer request is
answered. Then the logs agree exactly when every missed entry reaches the replica on one way only: a commit that comes
and is also sent again is executed twice (`ExecutedTwice`), an entry that is not sent at all is missing for good
(`MissedForGood`). `LogsBalance` is about the logs as multisets and assumes nothing but that the replica is not
disabled again: whatever is written, sequenced or restarted meanwhile, the two sides of the account grow alike but for
what the transfers send. `WritesMeet` draws the conclusion from a restart on, with both ends writing before and after
the answer; the places in the logs may then differ (`OwnWriteMoves`). A write of the primary's own that it has
sequenced and not executed when it answers can be lost to the replica (`OwnWriteIsLost`).

Once a restarted replica has the primary's log and nothing of either end is under way, at rest for example
(`RestIsLevel`), what holds of servers that were never disabled holds of it again from there on: `SinceExact` is the
exact condition for the order of each user's writes, `RejoinedConverge` and `RestartedConverge` draw the conclusion for
the tablets at rest.

## Where the code departs from its intent

- `fd_entry ==` compares prefixes (key_value.cc:149) and delete_folder scans for a prefix without a separator
  (key_value.cc:1056). The model keeps both. `DeleteFileKeepsTree`, `ScanIsSubtree` and `DeleteFolderKeepsTree` say
  exactly which siblings make them stray; `ExtendedFileBreaksTree` and `ExtendedFolderIsRemoved` show it from a fresh
  user on. A folder or file made under a parent that does not exist is stored all the same, listed nowhere; a file
  deletion naming a folder, or the reverse, removes the column and, if any list element matches, the wrong one.
  `StepKeepsTree` is the exact condition for a command to be defined and to leave a tree, `RunKeepsTree` for a run.
- A mail is stored under one more than the number of mails (key_value.cc:435), and an insertion under a number in use
  fails silently (key_value.cc:481). Without deletions the mailbox holds every mail (`MailboxHoldsMails`); after any
  mail but the newest was deleted, the next one is dropped and still answered with Success (`NextMailIsDropped`).
- A file or folder that is made and deleted again leaves the columns as they were exactly when no listed name is the
  start of its own (`PutThenDelete`, `MakeThenDelete`).
- Replay of a user deletion cuts the name out at the offset of `add` instead of `delete` (logging.cc:368).
  `LoggingKeepsReplay` is the exact condition, `DeleteReplaysKeywordTail` says which user is meant instead, and
  in `DeletedUserReturns` a user who was deleted is back. A command whose two offsets agree is called faithful.
- transfer_log does not send password changes and user deletions, and for a file deletion the bytes it sends are those
  of a pointer. These three kinds count as not sent (`Transferable`);
  `MissedForGood` is a run in which a replica misses one.
- The counter file is read with `atoi`, so it works below 2^31 (`CounterParses`, `CounterAdvances`).
- After a command line the SMTP scan skips a byte (smtp_thread.c:358), so an empty line directly behind it is missed.
  `FramingIsExact` and `CutsDoNotMatter` give the exact conditions, `EmptyLineIsMissed` the streams of one read, and
  `GreetingHidesEmptyLine` such a stream of this server: its first command with an empty line behind it.
- After a delivery only the first 50 bytes of the message buffer are cleared (smtp_thread.c:154), so the end of a longer
  message can follow a later one. `MessagesAreHandedOver` gives the exact condition, and `LongerMessageFollows` a
  connection on which it fails.
- The last chunk of an upload goes to the same append as the others, so uploading onto an existing file extends it
  (`UploadAppends`).
- `restart` on a server that was not disabled applies the log twice, and stores every mail again
  (`RestartWithoutDisableDuplicates`); the protocol model restarts disabled servers only.

## Model

The results come first, area by area; the rows from SeqConsistency.Server.constructor on are the methods in the code's
own form, each proved against the functions the results are about.

| member | source | states |
|---|---|---|
| Ordering.OrderHolds | seq_consistency.cc:241-398 | in every run: what is in flight to and from each replica is exactly the part of the order it has not consumed or not had counted, in order; each requestor's waiting writes continue its numbering; every count in `acktrack` is the number of replicas still to acknowledge |
| Ordering.AckIsTracked | seq_consistency.cc:269-282 | an arriving acknowledgement is for the next sequenced write not yet counted for that replica, which is tracked with exactly the number of missing acknowledgements; the error branch is dead |
| Acknowledgements.AcknowledgementsAreConserved | seq_consistency.cc:463-476 | in every run and for every write, the count equals commits plus acknowledgements of it under way, disabled replicas included |
| Acknowledgements.OkayOnceAfterAll | seq_consistency.cc:284-313 | +OK is sent at most once per write, never for the primary's, and exactly when the count is down to nothing; every replica has consumed the commit by then |
| Acknowledgements.TrackedOnce | seq_consistency.cc:469-476 | in every run no write is sequenced while acknowledgements of its number are awaited, so the insertion never finds a count in place |
| Acknowledgements.TrackedIsKept | seq_consistency.cc:469-476 | if it did, the count would be left as it is |
| Acknowledgements.NeverStuck | seq_consistency.cc:429-584 | in every run that is not at rest some thread can make a step, however many replicas are disabled |
| Liveness.ProgressIsNearer | seq_consistency.cc:241-584 | each step of the threads and each write finished leaves less to do: fewer requests unsequenced, or an earlier phase, or less weight under way |
| Liveness.EveryScheduleRests | seq_consistency.cc:429-584 | so without new writes every run comes to rest, under every schedule that never idles while a step is possible |
| Liveness.ComesToRest | seq_consistency.cc:429-584 | and every run can be carried on to rest, however many servers are disabled |
| Barrier.BarrierHolds | seq_consistency.cc:550-582 | the barrier's invariant in every run: at most one request or answer per replica under way, no commit behind a request, and each replica's cuts are those of the primary's requests that met it enabled |
| Barrier.BlockedPrimary | seq_consistency.cc:557-577 | while the primary is blocked `send_count` equals the requests and answers under way and nothing can be sequenced |
| Barrier.CheckpointsAgree | key_value.cc:1516-1569 | versions of never-disabled servers differ by at most one, agree outside a barrier, and each checkpoint was taken after the same number of commits |
| Barrier.CheckpointsAreThePrimarys | seq_consistency.cc:327-345 | every server's version is the number of checkpoints it took; a replica took its own at those of the primary's requests that met it enabled, after the same commits as the primary |
| Barrier.ReleaseFollowsCheckpoints | seq_consistency.cc:557-577 | when the barrier is released, every replica its request met enabled has taken its last checkpoint after every commit of the order |
| Snapshots.SnapshotTaken | key_value.cc:1516-1521 | in every run the checkpoint a server holds is the tablet it had when it took its last one, having seen every commit sequenced by then |
| Snapshots.SnapshotIsReplay | key_value.cc:1516-1521 | that is the replay of what it had logged, or empty for a primary disabled at that moment |
| Snapshots.SnapshotIsOfOrder | seq_consistency.cc:557-577 | a never-disabled server's checkpoint is the tablet the order gives up to its last cut, when it took it with nothing of its own unsettled and was never contended |
| Snapshots.SnapshotsAgree | seq_consistency.cc:557-577 | outside a barrier two such servers hold the same checkpoint |
| Checkpoints.OneInThree | seq_consistency.cc:550-576 | in every run in which the primary has no writes of its own, it has taken one checkpoint for every three writes it has sequenced, the last as soon as the test after the third has come |
| Checkpoints.ReplicasOneInThree | seq_consistency.cc:327-345 | so has every replica that was never disabled, outside a barrier |
| Checkpoints.VersionCountsTests | seq_consistency.cc:550-576 | in every run the version is the number of tests that found a multiple of three entries in the log |
| CheckpointRuns.ThirdIsCheckpointed | seq_consistency.cc:550-582 | for any three writes of a replica in a group of two, a run to rest after which both servers have version 1 and the tablet of the three as checkpoint |
| CheckpointRuns.OwnWriteSkipsCheckpoint | seq_consistency.cc:541-576 | for any four, one of them the primary's, a run to rest after which there is no checkpoint |
| Stamps.NumbersCount | seq_consistency.cc:519-582 | in every run the global number is the number of writes sequenced and barriers ended, and the writes are numbered by it in increasing order |
| Stamps.MessagesAreTrue | seq_consistency.cc:269-566 | in every run each announcement, commit, acknowledgement and +OK under way carries the number under which the write it identifies was sequenced, and each message of a barrier the number at which that began |
| OwnWrites.OwnHolds | seq_consistency.cc:163-200 | where a replica's one write stands in every run: held, or sequenced and blocked until all acknowledged, or +OK under way, or released |
| Journals.CommitPathIsPrefix | seq_consistency.cc:353-381 | what a never-disabled server executed of the others' writes is a prefix of the order without its own; for the primary the whole, disabled or not; its log is that of what it executed, and its tablet while it was never disabled |
| Journals.RequestorOrder | seq_consistency.cc:200-223 | each requestor's writes are sequenced in increasing order of their numbers, without gaps |
| Journals.TabletIsReplay | key_value.cc:1086-1498 | between steps an enabled server's tablet is the replay of its log, failed commands included, and a disabled one's is empty; the primary's too when it adds no user while disabled |
| Journals.PrimaryTabletIsReplay | storage_server.cc:487-511 | all along a run the primary's tablet is the replay of its log while enabled and empty while disabled, if and only if it adds no user while it is disabled |
| Convergence.ConservedHolds | seq_consistency.cc:149-227 | a server's executed writes plus its pending one are its sequenced writes plus those on their way, in order; the primary's whether or not it was disabled |
| Convergence.NoWriteIsLost | seq_consistency.cc:163-219 | in every run and for every server, the writes it took on are those sequenced and those on their way, in order, whichever servers are disabled |
| Convergence.ExactlyOnce | seq_consistency.cc:353-359 | at rest every never-disabled server, and the primary in any case, has executed every sequenced write exactly once and nothing else |
| Convergence.UserOrderExact | seq_consistency.cc:181-182 | at rest a server executed every user's writes in the primary's order if and only if no step executed another's write while an own write of the same user was seen but not executed, or executed early |
| Convergence.SettledTablet | seq_consistency.cc:353-381 | at any moment of a run, not only at rest, a server with nothing unsettled holds the tablet that the part of the order it has seen gives, when it was never contended |
| Convergence.ServersConverge | seq_consistency.cc:523-540 | at rest such servers hold equal tablets, namely the one the order gives, below the user limit; a primary that was disabled included, when its tablet is its log's |
| Convergence.OneHomeConverges | seq_consistency.cc:163-219 | when all writes that name one user are requested at one server, no step is ever contended and the servers agree at rest |
| Release.PrimaryReleasesInOrder | seq_consistency.cc:284-312 | all along a run the primary executes its own writes only once sequenced, if and only if no last acknowledgement arrives while it holds a later own write |
| Release.DrainedPrimaryIsInOrder | seq_consistency.cc:201-223 | a primary that takes on a write only when nothing of its own is tracked is always safe |
| Release.ReplicaReleasesAfterAll | seq_consistency.cc:314-316 | a replica is free to execute its own write only after it was sequenced and every replica consumed its commit |
| Counterexamples.EarlyRelease | seq_consistency.cc:284-312 | a run in which the primary is released to execute a write that is still held |
| Counterexamples.ServersDiverge | seq_consistency.cc:355-359 | a run of two servers that ends at rest with different tablets |
| Counterexamples.StoredTwice | storage_server.cc:487-511 | a run in which a user is added and a mail stored while the primary is disabled, and its restart stores the mail again |
| CatchUp.LogsMeet | storage_server.cc:501-528 | after restart and transfer the replica's log is the primary's if and only if the commits that were on their way to it or were sequenced before the answer, and what is sent, make up what it had missed by then, that is, if each missed entry reaches it on one way only |
| CatchUp.OneWayEach | logging.cc:386-668 | what is on its way and what is sent make up what is missing if and only if the former comes first in it and is of kinds that are not sent, and the rest of kinds that are |
| CatchUp.QuietLogsMeet | storage_server.cc:501-528 | with nothing on its way at the restart and nothing sequenced before the answer, if and only if every missed entry is of a kind that is sent |
| CatchUp.TabletsMeet | seq_consistency.cc:347-352 | then the tablets are equal too, namely the replay of the primary's log, while both are enabled and the primary added no user while disabled |
| Reconciliation.LogsBalance | seq_consistency.cc:347-381 | from any moment of any run on, while the replica is not disabled: what it logged, will execute or has pending, against what the primary logged or has pending, differs by a constant but for what the transfers send |
| Reconciliation.SameCommandsAtRest | seq_consistency.cc:447-454 | so at rest it has logged the same commands as the primary, each as often, if and only if the sides were even then but for what it was sent |
| Reconciliation.WritesMeet | seq_consistency.cc:447-454 | whatever is written and sequenced after a restart, before the answer as well: at rest the logs list the same commands, each as often, if and only if what was on its way at the restart and what is sent are as many of each as it had missed |
| Rejoin.SinceExact | seq_consistency.cc:353-359 | from a moment at which nothing of a server is under way, whether or not it was disabled before, to rest: it executed every user's writes since in the primary's order if and only if none of its steps was contended |
| Rejoin.LogsStayLevel | seq_consistency.cc:163-219 | so a replica and the primary with equal logs at such a moment, both uncontended from there on, come to rest with logs that list each user's commands alike |
| Rejoin.RejoinedConverge | seq_consistency.cc:523-540 | and with equal tablets, below the user limit, however often the replica was disabled and restarted before |
| Rejoin.RestartedConverge | storage_server.cc:501-528 | in particular a replica that is restarted, catches up with each missed entry reaching it on one way, and writes again |
| Rejoin.DisabledTakesNone | thread.cc:41-85 | from any moment at which a server is disabled it takes on no write until it is restarted |
| CatchUpRuns.ExecutedTwice | seq_consistency.cc:353-359 | a run in which a commit on its way at the restart is executed twice |
| CatchUpRuns.MissedForGood | logging.cc:546-549 | a run in which a missed password change, or another kind that is not sent, never reaches the replica's log |
| CatchUpRuns.MissedAndSent | logging.cc:435-640 | for every command that adds a user, a mail, a file or a folder, or deletes a mail or a folder, a run in which the replica missed it, and at rest both servers have it in their logs and its effect in their tablets |
| CatchUpRuns.OwnWriteIsLost | seq_consistency.cc:541-543 | a run in which a write of the primary's own, sequenced but not executed when it answers, never reaches the replica |
| CatchUpRuns.OwnWriteMoves | seq_consistency.cc:181-182 | a run in which both ends write after the catch-up and log the same commands at different places |
| Accounts.FailuresChangeNothing | key_value.cc:332-1083 | a command that does not answer Success changes nothing, and it finds no user exactly when it needs one that is not there |
| Accounts.AddingAnswers | key_value.cc:332-366 | the limit of 100 is answered first, then a duplicate; a user who is added has an empty mailbox, a root folder, and the given password for the next change |
| Accounts.DeletedIsGone | key_value.cc:368-388 | a deletion of a user who is there succeeds, and takes that row and no other |
| Accounts.UsersStayBelowLimit | key_value.cc:335-336 | after any log a tablet holds at most 100 users |
| Accounts.ChangeAnswers | key_value.cc:842-867 | a change of password is accepted if and only if the stored one is the start of the old one given; the next change must then start with the new one, and nothing else has changed |
| Accounts.PasswordIsLastSet | key_value.cc:842-867 | after any log a user's password is that of the last accepted change, or the one the user was added with |
| Mailbox.MailboxHoldsMails | key_value.cc:421-487 | after any run of a user's commands without a mail deletion, the columns that are not on the drive are those numbered from 1 on, and hold the mails in the order they were put |
| Mailbox.StoreThenDelete | key_value.cc:421-573 | storing a mail and deleting it gives the row back if and only if its number was free |
| Mailbox.DelMailDeletes | key_value.cc:537-573 | a deletion is refused if and only if there is no such mail; otherwise the column goes, the count falls, below zero around, and nothing else changes |
| Mailbox.DeletionKeepsNumbers | key_value.cc:557-561 | after a deletion the mails are still numbered from 1 to their count if and only if the newest was deleted |
| Mailbox.NextMailIsDropped | key_value.cc:435-481 | after another was deleted the next mail is not stored, though Success is answered |
| Mailbox.CountCoversMails | key_value.cc:557-561 | in every run from a fresh user the count is at least the number of mails held, so a deletion never takes it below zero |
| Drive.MakingAnswers | key_value.cc:869-941 | mkfolder refuses a path that is taken, and otherwise leaves an empty folder there, listed last in its parent if there is one, and nothing else changed |
| Drive.PuttingAnswers | key_value.cc:744-840 | putfile appends, or leaves a file with the data, listed likewise |
| Drive.DeletingAnswers | key_value.cc:626-1083 | the deletions answer that there is no file exactly when nothing is at the path, and leave nothing there when they succeed |
| Drive.PutThenDelete | key_value.cc:626-840 | storing a new file and deleting it gives the columns back if and only if no listed file's name is the start of its name |
| Drive.MakeThenDelete | key_value.cc:869-1083 | making a folder and deleting it gives the columns back if and only if no listed folder's name is the start of its name and no other path starts with its own |
| KeyValue.FindEntry | key_value.cc:146-150 | the first list element whose name is a prefix of the wanted one |
| KeyValue.RowsAreIndependent | key_value.cc:332-366 | below the user limit each row is a function of the commands that name its user |
| KeyValue.SameRowsSameTablet | key_value.cc:1086-1498 | two sequences of writes give the same tablet when each user's writes come in the same order |
| DirectoryTree.FreshRowIsTree | key_value.cc:297-330 | a fresh user's columns are a tree with an empty root |
| DirectoryTree.ListIsChildren | key_value.cc:744-941 | a directory's list is exactly the columns keyed by its path and a name, of matching kind, and `num_files` its length |
| DirectoryTree.LinkKeepsTree | key_value.cc:800-840 | creating a file or folder under an existing directory keeps the tree |
| DirectoryTree.DeleteFileKeepsTree | key_value.cc:626-678 | deleting a file keeps the tree if and only if no earlier list element is a prefix of its name |
| DirectoryTree.DescendsIsPrefix | key_value.cc:1052-1064 | lying below a folder is having its path and a separator as prefix |
| DirectoryTree.ScanIsSubtree | key_value.cc:1052-1064 | the scan removes exactly the subtree if and only if no sibling's name extends the folder's; mail always survives |
| DirectoryTree.DeleteFolderKeepsTree | key_value.cc:1019-1083 | deleting a folder keeps the tree if and only if neither prefix match strays |
| DirectoryTree.StepKeepsTree | key_value.cc:421-1083 | a command is defined and leaves a tree if and only if a column it creates has a parent directory, one it changes or removes is of its kind, and neither prefix match strays; missing parents and wrong kinds included |
| DirectoryTree.RunKeepsTree | key_value.cc:421-1083 | from a fresh user, every command of a run is defined and leaves a tree if and only if each meets that condition where it comes |
| DirectoryTree.ExtendedFileBreaksTree | key_value.cc:146-150 | a fresh user who stores two files, one name extending the other, and deletes the longer one has a list that is not that of the columns |
| DirectoryTree.ExtendedFolderIsRemoved | key_value.cc:1052-1064 | with two such folders, deleting the shorter one removes the longer, which stays listed |
| WriteAheadLog.ReplayIsLive | logging.cc:237-384 | replaying faithful commands is executing them |
| WriteAheadLog.LoggingKeepsReplay | logging.cc:362-374 | logging and executing a command keeps tablet and replay equal if and only if it is faithful or neither name is a user |
| WriteAheadLog.DeleteReplaysKeywordTail | logging.cc:368-371 | a deletion is replayed on the tail of its keyword, so on the right user only when that is the name |
| WriteAheadLog.DeletedUserReturns | logging.cc:362-374 | a user added and deleted is back after replay if and only if its name is not the keyword's tail |
| WriteAheadLog.RestartWithoutDisableDuplicates | storage_server.cc:501-511 | replay onto a tablet that was not cleared stores again every mail of a user the log adds and from whom it deletes nothing, so the number of mails is kept if and only if there is none |
| WriteAheadLog.ShippedIsWhole | logging.cc:386-668 | what is sent is everything if and only if every entry is of a kind that is sent |
| WriteAheadLog.SentAsOften | logging.cc:435-660 | an entry that adds a user, a mail, a file or a folder, or deletes a mail or a folder, is sent as often as it is in the stretch, and any other not at all |
| WriteAheadLog.SentInOrder | logging.cc:420-668 | what is sent are entries of the stretch in their order |
| Text.DecimalRoundTrip | logging.cc:218-219 | a printed counter reads back as its value |
| Text.DecimalGrows | logging.cc:221-224 | numerals never get shorter |
| Text.CaseIsIgnored | smtp_thread.c:193-342 | `strcasecmp` takes two characters for the same if and only if they are, or are one letter in either case |
| Logging.CounterParses | logging.cc:49-51 | the counter reads back through `atoi` if and only if it is below 2^31 |
| Logging.CounterAdvances | logging.cc:206-225 | rewriting the counter in place leaves the next numeral if and only if it is below 2^31 |
| WorkQueue.Conserved | master/thread_pool.cc:73-83 | over every interleaving of workers, what was submitted is what was handed out, in order, then what is queued |
| WorkQueue.WorkersStay | master/thread_pool.cc:73-83 | no worker leaves before the pool shuts down |
| WorkQueue.LastItems | master/thread_pool.cc:42-56 | after the shutdown each item handed out is the last of a worker already waiting |
| WorkQueue.ShutdownIsPrompt | master/thread_pool.cc:73-83 | so at most one item per worker is handed out after it |
| Shutdown.TakenIsServed | master/thread_pool.cc:73-83 | in every run what a worker took is what it has finished with, in turn, and what it is handling |
| Shutdown.ShutDownExactly | master/thread_pool.cc:58-83 | the pool is shutting down if and only if it was told to, a handler failed, or a descriptor of -1 was taken |
| Shutdown.WaitEnds | master/thread_pool.cc:42-56 | a worker whose wait is over gets the oldest descriptor or stops |
| Shutdown.WorkersEnd | master/thread_pool.cc:73-83 | once the pool is shutting down each worker makes at most three more steps, whatever is still submitted |
| Shutdown.WorkerCanStep | master/thread_pool.cc:73-83 | and some worker can make one until all have stopped |
| SmtpSession.ConnectionIsConsistent | smtp_thread.c:132-346 | over every connection `is_data` holds exactly in the DATA state and the accepted steps come in order |
| SmtpSession.DeliveryFollowsOrder | smtp_thread.c:215-338 | each delivery follows a MAIL FROM, one or more RCPT TO and a DATA, directly after HELO or the previous delivery |
| SmtpSession.EmptyOutsideData | smtp_thread.c:155-155 | `bytes_written` is 0 outside the DATA state |
| SmtpSession.MessageIsWritten | smtp_thread.c:158-175 | from DATA on, the bytes written are the data lines, with the From line before the connection's first text |
| SmtpSession.MessagesAreHandedOver | smtp_thread.c:152-155 | a message reaches the store as written if and only if it is shorter than 50 bytes or no earlier one was longer |
| SmtpSession.DeliveredMessage | smtp_thread.c:134-157 | what the dot hands over: the session's sender and recipient, the message, and when nothing follows it; DeliveryIsAddressed says whose names these are |
| SmtpAddress.RecipientIsNamed | smtp_thread.c:215-287 | "RCPT TO:<user@domain>" in its turn sets the recipient to the user and is answered OK if and only if the domain is localhost in any case; nothing else changes but the step taken |
| SmtpAddress.SenderIsNamed | smtp_thread.c:288-323 | "MAIL FROM:<user@domain>" in its turn sets the sender and the line to put in front of the message |
| SmtpAddress.NoAddressIsRefused | smtp_thread.c:226-304 | without an @ either is refused and names nobody, though the step is taken |
| SmtpAddress.RecipientIsLastNamed | smtp_thread.c:238-241 | over every connection the recipient is the one written in the last line that names any |
| SmtpAddress.SenderIsLastNamed | smtp_thread.c:311-313 | so is the sender |
| SmtpAddress.DeliveryIsAddressed | smtp_thread.c:132-323 | on every connection the dot hands over the lines since DATA for the user written in the last RCPT TO line that names one, from the user written in the last such MAIL FROM line |
| SmtpReplies.WordsInAnyCase | smtp_thread.c:193-342 | a command is known by its word in any case |
| SmtpReplies.CommandsInTurn | smtp_thread.c:193-347 | on every connection MAIL FROM, RCPT TO and DATA are accepted if and only if their step may follow those accepted before, and otherwise refused with nothing changed; QUIT ends the connection and NOOP does nothing |
| SmtpReplies.GreetingInTurn | smtp_thread.c:193-209 | HELO is accepted once and with a host, and otherwise refused as what it is |
| SmtpReplies.GreetingNeedsHost | smtp_thread.c:193-209 | "HELO host" begins a connection and "HELO" does not |
| SmtpReplies.UnknownIsAnswered | smtp_thread.c:189-345 | any other word is answered as unknown and changes nothing |
| SmtpReplies.OneReplyEach | smtp_thread.c:132-359 | on every connection each command but NOOP gets one reply, and each message one at its dot |
| SmtpExchange.LongerMessageFollows | smtp_thread.c:152-155 | a connection that delivers a message and then a shorter one of 50 bytes or more hands over the second with the end of the first behind it |
| SmtpFraming.NothingIsLost | smtp_thread.c:110-128 | lines extracted and unread rest rebuild the stream, for every way of cutting it |
| SmtpFraming.ScanIsSplit | smtp_thread.c:121-128 | one scan finds the lines of the text if and only if no empty line follows a command line in it |
| SmtpFraming.FramingIsExact | smtp_thread.c:110-128 | after every read the lines are those received if and only if no read contains such an empty line |
| SmtpFraming.CutsDoNotMatter | smtp_thread.c:110-128 | every way of cutting a stream gives its lines if and only if the stream contains no such empty line |
| SmtpFraming.EmptyLineIsMissed | smtp_thread.c:357-359 | a command line directly followed by an empty line in one read is not cut into its lines |
| SmtpThread.GreetingHidesEmptyLine | smtp_thread.c:357-359 | this server misses the empty line behind a client's first command in the same read |
| SmtpThread.SessionOfLines | smtp_thread.c:110-359 | a connection's session is that of its lines, however they were read |
| StorageUtil.Chunks | storage_util.cc:180-195 | full chunks and a last one within the limit |
| StorageUtil.ChunksRebuild | storage_util.cc:184-195 | the chunks are the data |
| StorageUtil.UploadStoresData | key_value.cc:765-840 | stored in turn on a new path they leave the file with the data, listed once, and nothing else changed |
| StorageUtil.UploadAppends | key_value.cc:765-790 | on an existing file they append, so the file is the data if and only if it was empty |
| StorageUtil.ListingRoundTrip | backendrelay.cc:129-147 | a listing reads back as its entries if and only if it is under 128 bytes and no name contains the separator |
| StorageUtil.EntryRoundTrip | storage_util.cc:59-61 | an item gives back kind and name |
| StorageUtil.ListingEnds | key_value.cc:1006-1012 | a listing is never empty and ends with the separator |
| StorageUtil.SplitRebuilds | storage_util.cc:79-84 | the two parts of any path make it up with a separator between them, or are both the path when it has none |
| StorageUtil.SplitUndoesPath | storage_util.cc:79-84 | splitting undoes the join of directory and name if and only if the name has no separator of either kind |
| HeaderSplit.SplitIsLossless | singleconnserverhtml.cc:553-569 | lines with their ends, one more line end and the body are the input, and no line contains a line end |
| HeaderSplit.SplitNeedsBlankLine | singleconnserverhtml.cc:557-558 | an exception is raised exactly without a blank line |
| HeaderSplit.UnsplitSplits | singleconnserverhtml.cc:553-569 | non-empty one-line headers and a body survive being joined and split |
| Routing.RoutingAgrees | thread.cc:20-29 | a command is sequenced if and only if process_command takes a logging branch for it |
| Routing.BranchesExclude | key_value.cc:1091-1475 | each branch of process_command is taken for its own word alone, in whatever order they are tried |
| Routing.WritesAreSequenced | thread.cc:20-29 | each of the nine words, in lower or upper case, is sequenced with whatever follows it; for a mail deletion the word alone |
| Routing.PayloadsAreNoControls | seq_consistency.cc:269-384 | no sequenced client command can be read as a control message |
| SeqConsistency.Server.constructor | seq_consistency.cc:32-46 | a server starts as the group's initial state has it |
| SeqConsistency.Server.StartWrite | seq_consistency.cc:163-219 | numbering, sending or holding a client's write, and blocking |
| SeqConsistency.Server.EndWrite | seq_consistency.cc:181-224 | execution of the released write, unless a replica was disabled, and the next number |
| SeqConsistency.Server.ReceiveAtPrimary | seq_consistency.cc:269-323 | the primary's handling of acknowledgements, checkpoint answers and requests, with the +OK it may send |
| SeqConsistency.Server.ReceiveAtPeer | seq_consistency.cc:314-381 | a replica's handling of +OK, checkpoint requests, transfers and commits, with its answers |
| SeqConsistency.Server.CountPeers | seq_consistency.cc:463-466 | the loop over the group counts every server but the primary |
| SeqConsistency.Server.Broadcast | seq_consistency.cc:486-497 | the loop sends to every server but the primary, once |
| SeqConsistency.Server.ExpectAcks | seq_consistency.cc:469-476 | an existing count is left alone, a missing one is set to the number of peers |
| SeqConsistency.Server.ServeTransfer | seq_consistency.cc:447-454 | the request is popped and the requestor alone is sent what it lacks |
| SeqConsistency.Server.SequenceHead | seq_consistency.cc:440-548 | the write is popped, tracked, announced and committed to every peer, then executed or released |
| SeqConsistency.Server.TestCheckpoint | seq_consistency.cc:550-576 | every third entry starts the barrier with a request to every peer and the primary's own checkpoint |
| SeqConsistency.Server.LeaveBarrier | seq_consistency.cc:577-582 | the second stamp of a barrier round |
| SeqConsistency.Server.Disable | storage_server.cc:487-500 | the tablet is cleared, the log stays |
| SeqConsistency.Server.Restart | storage_server.cc:501-528 | the log is replayed and a replica asks for what lies beyond it |
| Logging.LogFile.constructor | storage_server.cc:604-621 | the log is empty and its counter 0 |
| Logging.LogFile.GetLogSequenceNo | logging.cc:27-57 | the number of entries while the counter is sound |
| Logging.LogFile.AddLogEntry | logging.cc:112-235 | the entry is appended and the counter stays sound below the bound |
| Logging.LogFile.TransferLog | logging.cc:386-668 | the entries beyond a replica's, of the kinds that are sent, in order |
| Storage.Find | key_value.cc:660-672 | the loop of `std::find` returns the first match |
| Storage.EraseWithPrefix | key_value.cc:1052-1064 | the scan leaves exactly the columns without the prefix, in whatever order it visits them |
| Storage.Store.constructor | storage_server.cc:604-635 | an empty tablet and log |
| Storage.Store.AddUser | key_value.cc:332-366 | the limit, then the duplicate, then a row with its root folder |
| Storage.Store.DeleteUser | key_value.cc:368-388 | the row goes |
| Storage.Store.ChangePassword | key_value.cc:842-867 | the old password is compared as a prefix |
| Storage.Store.StoreEmail | key_value.cc:421-487 | the next mail number, and the insertion that fails silently on a used one |
| Storage.Store.DeleteMail | key_value.cc:537-573 | the column goes and the count wraps below zero |
| Storage.Store.StoreFile | key_value.cc:744-840 | append to an existing file, or create and list it |
| Storage.Store.CreateFolder | key_value.cc:869-941 | create and list an empty folder |
| Storage.Store.DeleteFile | key_value.cc:626-678 | remove the column and the list element found for it |
| Storage.Store.DeleteFolder | key_value.cc:1019-1083 | remove the scanned columns and the list element found for the folder |
| Storage.Store.ProcessCommand | key_value.cc:1086-1498 | log first, then execute; durability is kept exactly under the stated condition |
| Storage.Store.ReplayLog | logging.cc:237-384 | the loop applies the whole log in order |
| Storage.Store.Disable | storage_server.cc:487-500 | the tablet is cleared and the server marked |
| Storage.Store.Restart | storage_server.cc:501-513 | replay restores a cleared server; the number of entries is reported |
| Storage.Store.TakeCheckpoint | key_value.cc:1516-1569 | a snapshot and the next version |
| Storage.DisableThenRestart | storage_server.cc:487-513 | disabling and restarting gives the tablet back unchanged |
| WorkQueue.Queue.constructor | master/thread_pool.cc:85-98 | an empty queue |
| WorkQueue.Queue.Enqueue | master/thread_pool.cc:13-38 | the descriptor joins the end; the stale tail of an empty queue is never followed |
| WorkQueue.Queue.Dequeue | master/thread_pool.cc:42-56 | the head leaves and is freed, or -1 when there is none; enqueued is dequeued plus pending |
| WorkQueue.Queue.Terminate | master/thread_pool.cc:58-61 | the flag is set and the queue kept |
| SmtpThread.Search | smtp_thread.c:179-180 | the loop stops at the first of the characters |
| SmtpThread.ClientHandler.constructor | smtp_thread.c:71-108 | the connection's initial state |
| SmtpThread.ClientHandler.HandleData | smtp_thread.c:132-175 | a data line: the dot, a blank line or text |
| SmtpThread.ClientHandler.HandleHelo | smtp_thread.c:193-209 | HELO once, with a host |
| SmtpThread.ClientHandler.HandleRcpt | smtp_thread.c:215-287 | the state advances before the address is looked at |
| SmtpThread.ClientHandler.HandleMail | smtp_thread.c:288-323 | the state advances before the address is looked at |
| SmtpThread.ClientHandler.HandleCommand | smtp_thread.c:179-347 | the branch a command line takes |
| SmtpThread.ClientHandler.ReceiveBytes | smtp_thread.c:118-359 | one read: the scan with its skipped byte, and every line handled on the way |
| StorageUtil.SendChunks | storage_util.cc:180-195 | the loop keeps chunk_id * CHUNK_SIZE plus the rest equal to the size, terminates, and sends those chunks |
| StorageUtil.FolderContent | key_value.cc:981-1012 | the loop builds the listing |
| StorageUtil.SplitTokens | storage_util.cc:9-16 | the `getline` loop yields the tokens |
| StorageUtil.FindLastOf | storage_util.cc:81-81 | the last separator |
| StorageUtil.SplitPath | storage_util.cc:79-84 | the two parts, the whole twice without a separator |
| HeaderSplit.SplitHeaderBody | singleconnserverhtml.cc:553-569 | the loop ends on a strictly shorter remainder and yields the header lines and the body |

## Left out

- ServersConverge: one direction, and servers that were never disabled or the primary; writes executed in another order
  may still leave equal tablets, so the exact condition is stated for the order of each user's writes, in
  UserOrderExact. A replica that was restarted is the subject of RejoinedConverge, LogsMeet and LogsBalance.
- LogsMeet: neither end takes on a write while the replica catches up; LogsBalance and WritesMeet are without that, for
  the logs as multisets, and RestartedConverge for the writes that follow.
- TabletsMeet: one direction, since logs that differ may leave equal tablets; LogsMeet is exact.
- RejoinedConverge: one direction, for the same reason; SinceExact is exact.
- RestartedConverge: one direction, for the same reason; SinceExact is exact.
- SnapshotIsOfOrder: one direction, for the reason given for ServersConverge.
- RestartWithoutDisableDuplicates: the number of mails of one user; which logs leave the whole tablet as it is when they
  are applied twice is not characterised, and in the protocol only a disabled server is restarted.
- CheckpointsAgree: servers that were never disabled; CheckpointsAreThePrimarys and ReleaseFollowsCheckpoints cover the
  others, whose versions fall behind by the rounds they missed.
- StoreFile: the one byte that the append's copy bound drops (key_value.cc:781) is not modelled; data is concatenated.
- EraseWithPrefix: the scan works on a snapshot of the keys, where the program erases while it iterates.
- HandleRcpt: an address whose pieces would have negative length gives an empty piece, where the program's copy is
  undefined.
- MessagesAreHandedOver: lines with NUL bytes are excluded, since the buffer is handed over as a C string.
- Commands that cast a column of one content type to another, or miss a list element they erase, have the status
  `Undefined` and leave the row as it was; `StepKeepsTree` says which commands never meet it. Names with a separator in
  them, and empty ones, are outside the statements about the tree.
- Sockets, polling, thread creation, sleeps and busy waits are scheduling; partial receives and sends, message layout,
  fixed buffer sizes, unterminated or uninitialised strings and failing allocation are not modelled. The byte behind the
  data received so far is taken not to be a line feed.
- The text of a command is a typed value, except in the routing rules and for the user deletion, whose text matters.
- Checkpoint files, their format and recovery from them: a checkpoint is a snapshot and a version number.
- Reading commands: auth, getmail, mailbody and getfile; of getfile only the first chunk is ever right.
- Mailboxes over runs with deletions: NextMailIsDropped shows what is lost; which mails a mailbox then holds is stated
  for one command at a time.
- The time in a message's From line is one value for the whole connection, and the text of SMTP replies is their kind.
- The master, the load balancer, cookies, the admin console, page generation, MD5, and promotion of a new primary.
- Fairness of a real scheduler: EveryScheduleRests speaks of schedules that never idle while a step is possible.
