# Verification of VerAI's work distribution, model builder, data set and log

This project models four parts of VerAI in Dafny and proves what they keep over whole runs.

* **The work-distribution protocol.** Daemons handshake with a server, poll it for tasks, run the tasks on one
  worker thread and re-arm themselves through a deferred-task list; the server keeps a task list, a download list
  and an update list for each daemon, and one queue of generated torrents. `Protocol` is the system of all daemons
  and the server as a state machine: every RPC, every piece of client code between two RPCs, every move of a worker
  and every move of a timer is one step, and steps interleave freely. `ServerHandling.ServerHandler` and
  `GrpcClient.GRPCClient` are the two objects, updated in place and proved against the same functions and steps.
  `HandOuts` follows every descriptor from a report to the lists it ends in.
* **The worker thread and its timer.** `Worker` is the worker's loop with program counters for worker, producers and
  stopper; `Timer.WorkingThread` is the timer's pass over the deferred list, and `TimerDelays` accounts
  for how long a task waits.
* **The model builder.** `ModelGraph.Step` is one iteration of the round-robin loop that creates the components of a
  model, including the index that skips a name after every removal. `ModelEval.Eval` is the recursive evaluator it
  is compared with; `ModelOrder` says when the order of the keys matters. What a component's `init` computes is an arbitrary function that may fail.
* **The data set.** `EpochBatches.DataSet` draws batches across epochs with reshuffling; the shuffles drawn are
  arbitrary. `EpochOrder` says which shuffle orders which epoch. `OneHot` is the flat scatter that encodes the labels, `Images` the two reshapes of the image bytes.
* **The log.** `RollingLog.RollingFileAppender` works on an in-memory directory and is proved to show exactly the
  files of `LogSpec`, which keeps the records; `CsvLog` prints rows and parses them by section 2 of RFC 4180, with
  `;` as the separator and a newline as the row end, as the log writes them.

`dafny verify dfyconfig.toml` checks everything.

## What the code does not do

Some expected properties are false of the code. For each there is a lemma with an input that shows it, and one that says
exactly when the property holds.

* A GENERATED report without a link can leave a torrent in its daemon's update list with no task to deal with it:
  `ProtocolRuns.EmptyLinkStrands` is such a run from the start; exactly when: `ProtocolTheorems.ReportAttendsUnless`.
* Each unfinished torrent that an update task reports brings one new update task, so an update task is replaced by more
  than itself if and only if it finds more than one torrent unfinished (`ProtocolGrowth.OneUpdateTask`). While `k`
  listed torrents stay unfinished, each poll multiplies the update tasks by `k`, in every run
  (`ProtocolGrowth.UpdatesMultiply`); `ProtocolRuns.UpdatesDoMultiply` is a run from the start with `k` two.
* A task deferred during a wait is charged the whole of that wait, so it may be queued before its delay is over:
  `TimerDelays.DeferredDuringWaitIsEarly`; exactly when: `TimerDelays.NeverEarlyIff`.
* The comparator of the deferred list can compare delays wrongly once they differ by 2^31 ms:
  `Timer.CompareWraps`; exactly when: `Timer.CompareIff`.
* A task pushed after the worker's last look at its queue is never run: `Worker.LatePushIsLost`; exactly which:
  `Worker.PushIsLostIff`.
* The build loop need not end: `ModelBuild.LonelyHangs`; exactly when it ends: `ModelBuild.HangsIff`.
* Optional inputs can make the outputs depend on the order of the keys: `ModelOrder.OptionalMatters`; exactly when they do
  not: `ModelOrder.OrderIrrelevantIff`.
* A batch may be short and leave the index out of its range: `EpochStream.ShortBatch`; exactly when:
  `EpochStream.FullBatchIff`.
* With labels out of range some row has no 1, and nothing need raise: `OneHot.BadLabels`; exactly when every row has
  its one: `OneHot.OneHotIff`. The first such label always leaves its row without a 1; a later one's row may hold a 1
  that another label put there.
* A log name that ends in a dot is written to another name: `LogNames.TrailingDotIsLost`; exactly when:
  `LogNames.CurrentNameIff`.
* A new appender does not roll a file that is already over the limit before its first write, which may then exceed the
  limit by more than the longest record: `LogSpec.RestartOverfills`; exactly when: `LogSpec.WriteBoundsIff`.
* A CSV row whose function name holds a separator, a quote or a newline does not read back:
  `CsvExact.SeparatorInNameIsLost`; exactly when: `CsvExact.RowParsesIff`. The first title of a log file is not `Date`
  but a byte-order mark and `Date`: `CsvLog.FileParsesBack`.

## Model

| member | source | states |
|---|---|---|
| `Torrents.UpsertRefines` | Daemon/tests/grpc_server.cpp:160-173 | adding to a vector with unique ids keeps them unique and is exactly an update of the id-to-info map it stands for |
| `Torrents.RemoveRefines` | Daemon/tests/grpc_server.cpp:175-187 | removing from it keeps ids unique and deletes exactly that id from the map |
| `ServerHandling.FindTorrent` | Daemon/tests/grpc_server.cpp:189-197 | the linear search stops at the first torrent with the id, or at the end |
| `ServerHandling.ServerHandler.AddTask` | Daemon/tests/grpc_server.cpp:21-32 | appends the task to the daemon's list, creating the list if needed, and changes nothing else |
| `ServerHandling.ServerHandler.DownloadTorrent` | Daemon/tests/grpc_server.cpp:199-206 | the oldest generated torrent moves, unchanged, to the daemon's download list together with a download task; nothing happens when there is none |
| `ServerHandling.ServerHandler.Handshake` | Daemon/tests/grpc_server.cpp:34-50 | registers the daemon and authorizes it under its own id; the first handshake gives generate and update tasks, later ones offer a torrent |
| `ServerHandling.ServerHandler.UpdateTorrentStatus` | Daemon/tests/grpc_server.cpp:52-88 | the whole new state for every status, for the walk over the registered daemons that was made |
| `ServerHandling.ServerHandler.GetTaskList` | Daemon/tests/grpc_server.cpp:90-101 | returns and forgets the daemon's task list |
| `ServerHandling.ServerHandler.GetInfoForGenerateTorrents` | Daemon/tests/grpc_server.cpp:103-114 | a registered daemon's new torrent enters its update list; an unregistered one gets a blank descriptor |
| `ServerHandling.ServerHandler.GetTorrentsForUpdateStatus` | Daemon/tests/grpc_server.cpp:116-125 | returns the daemon's update list and changes nothing |
| `ServerHandling.ServerHandler.GetTorrentsForDownload` | Daemon/tests/grpc_server.cpp:127-143 | the download list moves into the update list, by id, with an update task, and is returned |
| `ServerSpec.TorrentsAreConserved` | Daemon/tests/grpc_server.cpp:52-88 | over any sequence of handler calls: torrents reported as generated are those handed out followed by the queue, in order; ids stay unique; each hand-out not yet reported as finished is in one of its daemon's lists |
| `HandOuts.ListsAreTraced` | Daemon/tests/grpc_server.cpp:52-143 | over any sequence of handler calls, every descriptor in a daemon's download list is one dispatched to it, field for field, and one in its update list is such a one or an order with nothing but its id and project |
| `HandOuts.HandedAsReported` | Daemon/src/controller.cpp:49-64 | in every run, every descriptor handed to a daemon is, field for field, what some daemon's torrent session said in a report of the run, generated and with a link |
| `HandOuts.FinishedLeaves` | Daemon/tests/grpc_server.cpp:62-87 | a report that its torrent is finished takes exactly that torrent out of the daemon's update list; any other report leaves the list |
| `HandOuts.FetchedAreUpdated` | Daemon/tests/grpc_server.cpp:127-143 | fetching moves all downloads into the update list, each as it was handed out, and leaves none |
| `GrpcClient.GRPCClient.Start` | Daemon/grpcservice/grpc_client.cpp:19-30 | starting queues exactly a handshake task and is one step of the system; a running client is left alone |
| `GrpcClient.GRPCClient.HandshakeTask` | Daemon/grpcservice/grpc_client.cpp:122-137 | for any network outcome the body is the handshake call with that outcome and its end: a reply is stored and followed by a poll, a failure by a deferred retry |
| `GrpcClient.GRPCClient.UpdateTasksTask` | Daemon/grpcservice/grpc_client.cpp:108-120 | the body is one poll and one step for each task received, which are queued in order, and the next poll is deferred; a stopped client only polls |
| `GrpcClient.GRPCClient.DownloadTorrentTask` | Daemon/grpcservice/grpc_client.cpp:139-147 | the body fetches the download list, takes each torrent of it in order, failing exactly those that fail to start, and queues an update task |
| `GrpcClient.GRPCClient.StartDownload` | Daemon/src/controller.cpp:38-46 | a report is made exactly when the download fails to start, and says what the server sent |
| `GrpcClient.GRPCClient.UpdateTorrentTask` | Daemon/grpcservice/grpc_client.cpp:149-159 | the body fetches the update list and reports each torrent of it in order, as the session describes it |
| `GrpcClient.GRPCClient.CreateTorrentTask` | Daemon/grpcservice/grpc_client.cpp:161-169 | the body orders one torrent under the new id and defers an update task |
| `ProtocolProofs.TokenStep` | Daemon/grpcservice/grpc_client.cpp:69-137 | every client step keeps exactly one polling token, of the kind the handshake allows, and nothing but the handshake before the reply is stored |
| `ProtocolProofs.CallGrows` | Daemon/tests/grpc_server.cpp:21-143 | no handler call for one daemon touches another's update list, takes a task from it, or gives it a download without the task to fetch it |
| `ProtocolProofs.ReportCovered` | Daemon/tests/grpc_server.cpp:62-87 | an honest report either removes the torrent from the update list or leaves an update task for the daemon |
| `ProtocolProofs.StepKeepsAttended` | Daemon/grpcservice/grpc_client.cpp:108-169 | every step with an honest report keeps every daemon's lists attended by a live task |
| `ProtocolTheorems.NoTorrentIsStranded` | Daemon/tests/grpc_server.cpp:52-143 | in every run: non-empty update and download lists have a live task on the server or in the client, torrents are handed out in order, and every open hand-out is in a list with a live task |
| `ProtocolTheorems.OnePollingToken` | Daemon/grpcservice/grpc_client.cpp:69-137 | in every run, a running client holds exactly one handshake or polling task across queue, batch, deferred list and current task |
| `ProtocolTheorems.ClientNeverStuck` | Daemon/grpcservice/grpc_client.cpp:84-169 | in every run, a running client has a step of its own to take |
| `ProtocolTheorems.HandshakeFirst` | Daemon/grpcservice/grpc_client.cpp:122-137 | in every run, any other RPC of a daemon comes after a step that stored a successful handshake reply |
| `ProtocolTheorems.ReportAttendsUnless` | Daemon/tests/grpc_server.cpp:62-73 | exactly which report leaves its daemon unattended |
| `ProtocolRuns.EmptyLinkStrands` | Daemon/tests/grpc_server.cpp:62-73 | a run from the start at the end of which a torrent is in the update list and no update task is left anywhere |
| `ProtocolProgress.Drive` | Daemon/common/working_thread.cpp:59-70 | any task waiting in a client can be brought to run by the daemon's own steps |
| `ProtocolGrowth.UpdatesBalance` | Daemon/tests/grpc_server.cpp:21-143 | over every run, a daemon's update tasks on the server and in its client are those it had, plus those that handler calls and task bodies made, less those completed |
| `ProtocolGrowth.OneUpdateTask` | Daemon/tests/grpc_server.cpp:52-88 | whatever the others do meanwhile, one update task brings exactly one new update task for each report that finds its torrent unfinished; the daemon has no more than before if and only if at most one did |
| `ProtocolGrowth.UpdatesMultiply` | Daemon/tests/grpc_server.cpp:79-86 | in every run, while the k torrents listed stay unfinished, n polls turn m update tasks on the server into m times k to the n |
| `ProtocolGrowth.UpdatesCanMultiply` | Daemon/tests/grpc_server.cpp:79-86 | from any resting daemon there is such a run, for every n |
| `ProtocolRuns.UpdatesDoMultiply` | Daemon/tests/grpc_server.cpp:79-86 | a run from the start that has six times two to the n update tasks n polls later, for every n |
| `ProtocolProgress.EveryHandOutCanBeFinished` | Daemon/grpcservice/grpc_client.cpp:108-159 | from every reachable state, each open hand-out can be reported as finished by steps of its daemon alone |
| `MessageQueues.MessageQueue.Push` | Daemon/common/message_queue.h:31-36 | appends the item |
| `MessageQueues.MessageQueue.Pop` | Daemon/common/message_queue.h:51-63 | takes the first item, or fails on an empty queue |
| `MessageQueues.MessageQueue.WaitAndReturnAll` | Daemon/common/message_queue.h:96-107 | hands over the whole queue and leaves it empty; an empty queue means waiting on |
| `Worker.WorkerIsFifo` | Daemon/common/working_thread.cpp:55-91 | under all interleavings: tasks run once each in push order, until Stop every task pushed is run within a number of worker steps linear in the tasks it has, the drain never pops an empty queue, the worker never waits for ever after Stop, and it ends having run every task but the last ones, counted as late |
| `Worker.RunningWorkerRunsAll` | Daemon/common/working_thread.cpp:59-70 | from every state a running worker gets, within that number of its steps, to waiting on an empty queue with every task run |
| `Worker.StopTerminates` | Daemon/common/working_thread.h:78-84 | after Stop, if no task pushes another, the worker ends within a bounded number of steps and has run everything |
| `Worker.PushIsLostIff` | Daemon/common/working_thread.cpp:71-79 | a pushed task is lost if and only if the worker was past its last emptiness check when it was pushed; any other has been run, in its place, when the worker ends |
| `Timer.CompareIff` | Daemon/common/working_thread.cpp:131-134 | the unsigned comparator orders two delays as numbers exactly when they differ by less than 2^31 |
| `Timer.WorkingThread.EnqueueTaskAfterTimeOut` | Daemon/common/working_thread.cpp:36-41 | one more deferred task at the end of the list, with its full delay |
| `Timer.WorkingThread.Sweep` | Daemon/common/working_thread.cpp:140-149 | the erase loop sends the due tasks in list order and charges the others the wait |
| `Timer.WorkingThread.DeferredTasksPass` | Daemon/common/working_thread.cpp:126-157 | one pass of the timer's loop after the wait, whatever order qsort gives equal delays |
| `TimerProofs.NoTaskLost` | Daemon/common/working_thread.cpp:36-41 | over any run, each deferred task is in the list or has been sent, once |
| `TimerProofs.ShorterDelayFirst` | Daemon/common/working_thread.cpp:131-149 | of two tasks listed together, the one with the smaller remaining delay is never sent after the other, however the run goes on |
| `TimerProofs.NextWaitIsLeast` | Daemon/common/working_thread.cpp:126-157 | after a wake-up the next wait is the least remaining delay and will be charged, or the default and will not be when none is left; a wake-up without tasks changes nothing |
| `TimerDelays.RemainingDelay` | Daemon/common/working_thread.cpp:140-149 | over every run, a listed task's remaining delay is the one it had less the waits charged since, and it has been sent exactly when they have used it up |
| `TimerDelays.SentInTime` | Daemon/common/working_thread.cpp:126-149 | once waits are charged, a listed task has been sent exactly if the timer has slept for its remaining delay |
| `TimerDelays.EarlyByAtMost` | Daemon/common/working_thread.cpp:126-149 | a task is sent before its delay is over by no more than the part of the wait that had passed when it was deferred |
| `TimerDelays.NeverEarlyIff` | Daemon/common/working_thread.h:65-70 | no continuation queues a task before its delay is over if and only if it is deferred while the next wake-up charges nothing, at the very start of a wait, or without a delay |
| `TimerDelays.DeferredDuringWaitIsEarly` | Daemon/common/working_thread.cpp:126-149 | a run in which a task deferred for 400 ms is queued after 100 ms |
| `ModelEval.CheckDependences` | tensorflow/main.py:94-125 | the loop's verdict is decided by the first important input that is not satisfied |
| `ModelEval.SetInputs` | tensorflow/main.py:53-62 | binds every input whose object exists and raises on a missing variable |
| `ModelEval.CreateComponents` | tensorflow/main.py:127-165 | on every model for which the loop ends, it returns what the iterations have computed when they stop, or nothing if something raised |
| `ModelGraph.ProbeIff` | tensorflow/main.py:94-125 | all important inputs satisfied means go; otherwise the first that is not decides: a missing object means wait, a missing variable raises |
| `ModelGraph.BindIff` | tensorflow/main.py:53-62 | binding raises exactly if some created object lacks the variable named; a name is bound to what the last of its inputs with a created object refers to |
| `ModelGraph.StepSound` | tensorflow/main.py:135-165 | every iteration keeps the index in range and each name pending or created, never both |
| `ModelGraph.StepCreates` | tensorflow/main.py:142-153 | an iteration that creates something stores, under the name at the index, what that component answers to its own name, item and bound inputs, and changes no other output |
| `ModelGraph.StepMovesOn` | tensorflow/main.py:163-165 | a failed probe moves on to the next name; after a creation the name that followed is skipped, and the index goes back to the front at the end |
| `ModelBuild.RoundShrinks` | tensorflow/main.py:163-165 | despite the skip after a removal, a ready name is reached within one round, by when something is created or raised |
| `ModelBuild.StopsWithin` | tensorflow/main.py:134-165 | the loop has stopped after n(n+1)/2 iterations if no name waits on a cycle or a missing name |
| `ModelBuild.HangsIff` | tensorflow/main.py:134-165 | on every model, the loop ends if and only if something raises or the important references stay inside the model and are acyclic |
| `ModelBuild.CreatedIsLeast` | tensorflow/main.py:94-165 | the created names lie in every set closed under readiness, and are the least one, for ever, once a round has failed |
| `ModelBuild.WholeRoundFailed` | tensorflow/main.py:135-165 | as many failed probes in a row as there are pending names have probed every one of them |
| `ModelEval.BuildIsEval` | tensorflow/main.py:53-165 | with settled optional inputs, the final output map equals the recursive evaluation, and the build succeeds if and only if every component evaluates |
| `ModelEval.KeyOrderIrrelevant` | tensorflow/main.py:128-165 | with settled optional inputs, neither success nor the outputs depend on the order of the keys in the model file |
| `ModelOrder.CreateAll` | tensorflow/main.py:134-165 | from the keys planned for any order of creation that respects the important references the loop, skips and all, keeps to that order: each component finds exactly the objects that stand before it |
| `ModelOrder.UnsettledMatters` | tensorflow/main.py:55-59 | for an optional input to a component that is neither an important ancestor nor a descendant, some components and two orders of the keys build different outputs |
| `ModelOrder.OrderIrrelevantIff` | tensorflow/main.py:53-165 | the order of the keys is irrelevant for all components if and only if every optional input refers outside the model, to an important ancestor, to its own component or to an important descendant |
| `ModelRun.GetComponentsToRun` | tensorflow/main.py:167-189 | the result lists, once each, the outputs of the components that no input of the phase refers to, and nothing else |
| `ModelRun.RunsReachAll` | tensorflow/main.py:167-189 | in an acyclic phase every component is run or is reached from one that is by following inputs |
| `ModelRun.SomethingRuns` | tensorflow/main.py:176-189 | a non-empty acyclic phase whose components have outputs always has something to run |
| `EpochBatches.DataSet.NextBatch` | tensorflow/dataset/dataset_reader.py:176-212 | the new arrays, counters and the batch returned; the arrays are reordered by the first shuffle at the very beginning, by the second when the call wraps, and only if shuffling is asked for |
| `EpochBatches.PermuteMultiset` | tensorflow/dataset/dataset_reader.py:195-199 | indexing by a shuffle rearranges the rows |
| `EpochStream.FullBatchIff` | tensorflow/dataset/dataset_reader.py:186-212 | a call returns exactly the size asked for and leaves the index in range if and only if index plus size is at most 2n |
| `EpochStream.SmallIsFair` | tensorflow/dataset/dataset_reader.py:176-212 | batches no larger than the data set, with any shuffles, always meet the condition of the next three |
| `EpochStream.EveryEpochIsAPermutation` | tensorflow/dataset/dataset_reader.py:176-212 | each aligned block of n drawn rows is a permutation of the original image-label pairs, and epochs times n plus the index is the number drawn |
| `EpochOrder.FirstEpoch` | tensorflow/dataset/dataset_reader.py:179-184 | if the first call asks for anything, the first epoch comes in the order of its shuffle if it shuffles, and as given otherwise |
| `EpochOrder.LaterEpoch` | tensorflow/dataset/dataset_reader.py:186-206 | each later epoch is the one before it, rearranged by the shuffle of the call that ended it if that call shuffles, and in the same order otherwise |
| `EpochOrder.EpochEnds` | tensorflow/dataset/dataset_reader.py:186-188 | every epoch that has ended was ended by a call that wraps |
| `EpochOrder.Unshuffled` | tensorflow/dataset/dataset_reader.py:176-212 | if no call shuffles, draw i is row i mod n |
| `EpochStream.RowsDrawnEvenly` | tensorflow/dataset/dataset_reader.py:176-212 | every row has been drawn once per completed epoch and at most once more |
| `EpochStream.EveryWindowHasEveryRow` | tensorflow/dataset/dataset_reader.py:176-212 | any 2n-1 consecutive draws contain every row |
| `OneHot.DenseToOneHot` | tensorflow/dataset/dataset_reader.py:64-70 | the flat result has a 1 exactly where some label scatters to; an index outside it raises |
| `OneHot.OneHotIff` | tensorflow/dataset/dataset_reader.py:64-70 | every row has exactly one 1 if and only if all labels are below the number of classes, and then it stands at the label |
| `Images.ExtractsIff` | tensorflow/dataset/dataset_reader.py:49-61 | extraction succeeds if and only if the file is an image file with enough bytes, and then the data set's own reshape succeeds too |
| `Images.PixelPlace` | tensorflow/dataset/dataset_reader.py:58-60 | after both reshapes pixel (k, r, c) is at row k, column r * cols + c, and is byte k * rows * cols + r * cols + c |
| `Images.CellIsPixel` | tensorflow/dataset/dataset_reader.py:133-135 | every column of a flattened row is the place of exactly one pixel |
| `LogNames.NamesDiffer` | plog/include/plog/Appenders/RollingFileAppender.h:90-106 | different numbers name different files |
| `LogNames.NumberedName` | plog/include/plog/Appenders/RollingFileAppender.h:90-106 | the nth file is named by the stem, a dot, the decimal digits of n, and a dot and the extension if there is one |
| `LogNames.CurrentNameIff` | plog/include/plog/Util.h:184-198 | the current file has the name asked for exactly when that name does not end in a dot |
| `RollingLog.RollingFileAppender.OpenLogFile` | plog/include/plog/Appenders/RollingFileAppender.h:74-88 | opens or creates the current file, gives an empty one its header, and knows its length |
| `RollingLog.RollingFileAppender.RollLogFiles` | plog/include/plog/Appenders/RollingFileAppender.h:56-72 | every file moves up one number, the oldest is gone, the current one holds the header, and no other name changes |
| `RollingLog.RollingFileAppender.Write` | plog/include/plog/Appenders/RollingFileAppender.h:33-53 | the directory shows the log with the record added, m_fileSize is the current file's length, and no other name changes |
| `LogSpec.HeldIsRecent` | plog/include/plog/Appenders/RollingFileAppender.h:33-72 | over any writes and restarts the records held are the end of the written stream, and all of it if and only if no write so far deleted a file |
| `RollingLog.LogAll` | plog/include/plog/Appenders/RollingFileAppender.h:13-106 | a program that logs and restarts leaves at most maxFiles files, numbered contiguously, each with its header; without headers, oldest first, they end the written text at a record boundary, and are all of it if and only if no file was deleted, so always when only one is kept; every file but the current one is over maxFileSize and 1000 bytes |
| `LogSpec.WriteBoundsIff` | plog/include/plog/Appenders/RollingFileAppender.h:42-52 | a write keeps every file within the limit plus the longest record if and only if it opens the first file, rolls, or still fits |
| `LogSpec.SizesStayBoundedIff` | plog/include/plog/Appenders/RollingFileAppender.h:42-52 | over any writes and restarts archived files are over the limit, and no file ever exceeds it by more than the longest record if and only if no write overfills the current file |
| `LogSpec.SizesStayBounded` | plog/include/plog/Appenders/RollingFileAppender.h:42-52 | with rolling enabled, one appender that starts within the limit never overfills |
| `LogSpec.RestartOverfills` | plog/include/plog/Appenders/RollingFileAppender.h:42-52 | two records that together pass the limit, a restart and a third exceed the bound |
| `CsvLog.FormatRecord` | plog/include/plog/Formatters/CsvFormatter.h:16-49 | the row printed by appending to the stream: up to 32000 characters the message as it is, otherwise its first 32000 and three dots |
| `CsvLog.TokensQuote` | plog/include/plog/Formatters/CsvFormatter.h:37-44 | printing token by token puts the message in quotes and doubles every quote in it |
| `CsvLog.FeedTokens` | plog/include/plog/Formatters/CsvFormatter.h:37-44 | printing token by token quotes the message so that it reads back as one field |
| `CsvLog.LogParsesBack` | plog/include/plog/Formatters/CsvFormatter.h:11-49 | header and any records parse back to the seven titles and one seven-field row each: the six leading fields, and the message or its first 32000 characters and three dots; a mark before the header joins the first title |
| `CsvLog.FileParsesBack` | plog/include/plog/Converters/UTF8Converter.h:9-14 | the same for a file as the converter writes it, whose first title is a byte-order mark and Date |
| `CsvExact.RowParsesIff` | plog/include/plog/Formatters/CsvFormatter.h:22-46 | a row reads back if and only if the function name has no separator, quote or newline |

## Left out

- The torrent session and its alerts: a report takes its status and link from an arbitrary snapshot of the session.
- gRPC transport: calls are reliable and atomic, except that a handshake may fail with or without having reached the server.
- The order in which `ServerHandler` takes its mutexes: handler calls are atomic steps, so deadlock is not considered.
- `GRPCClient::Stop`, `ClearQueueTasks` and `EnqueueTaskFront`: they discard or reorder work on purpose.
- The start of a worker and the start-up race on its running flag: runs begin once the worker has set the flag.
- Worker and timer threads as running loops: their interleavings are state machines; only the timer's pass, the queue, the server and the client bodies are methods. The queue's wait loop appears as a step that is not enabled while the queue is empty.
- GrpcClient.GRPCClient.UpdateTasksTask: like the other bodies of this class, it describes the uninterrupted body; interleaving is in `Protocol`.
- `WorkingThread::Stop` clearing the deferred list: the timer's runs end before it.
- Clock readings: the timer is given the length of each wait in whole milliseconds, and each deferral its time since the wait began; the time between two waits counts as none.
- Timer.WorkingThread.DeferredTasksPass: the memory effect of sorting shared pointers with qsort is not modelled.
- References that are lists or have no single dot: `set_inputs` cannot handle them; a model here has split references only.
- Component classes, JSON files and TensorFlow: a component is its `init` function, and a class that cannot be loaded is an `init` that fails.
- Optional inputs that are not settled in `ModelEval.BuildIsEval`: excluded by its precondition, since the outputs then depend on the key order (`ModelOrder.OrderIrrelevantIff`).
- Image headers and pixel scaling: the magic number and sizes come decoded, and pixels are opaque.
- File errors and short writes: every write succeeds in full; `-1` sizes do not occur. A rename always succeeds, also for a log name whose last dot is in a directory part, where the code would rename into a directory that does not exist and stop rolling.
- Several appenders on one directory, and wide-character builds of the log.
- Time stamps, severities, thread ids and object addresses are strings already printed, without separators.
