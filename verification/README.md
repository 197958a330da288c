# Proofs about easyDDB and the brpc library it is built on

easyDDB is a small distributed database. Its servers execute a query plan
together (`src/db_server/db.cpp`) and talk to each other through a copy of brpc.
This project models the five parts of the two that carry the most state, and
proves what they promise over every input or every interleaving.

- **AMF0 codec** (`Bytes`, `AmfStreams`, `AmfValues`, `AmfReader`, `AmfWriter`,
  `AmfRoundTrip`, `AmfForms`, `AmfTruncation`, `AmfWire`, `AmfArrays`). The
  readers are recursive methods that cut a chunked stream; they are proved to
  compute functions of the flat byte sequence, so chunking cannot be observed.
  The writers are proved to store a prefix of a flat encoding. Reading an
  encoding gives the value back and leaves what followed it, exactly when no name
  is empty. Spellings that only other writers use are read to what they stand for.
- **RPC retries, backup requests and timers** (`RpcMachine`, `RpcProofs`,
  `RpcShape`, `RpcTheorems`, `RpcTimers`, `RpcRetries`, `RpcController`). The controller is a class whose
  methods are proved equal to a state machine; the theorems are about every run
  of responses, socket failures, timers and cancellation, whatever the peers
  answer.
- **Plan execution** (`PlanProtocol`, `PlanProofs`, `PlanRows`,
  `PlanTermination`, `PlanTheorems`, `PlanTree`, `PlanInputs`, `PlanSolo`,
  `PlanDuplicates`, `PlanOnce`, `PlanAlone`, `PlanChain`, `PlanLate`,
  `PlanClean`). Sites share flags in a key-value store
  and read them one at a time. Each access is a step, and a run is any schedule
  of the processes. Rows are good when the select that gave them found good rows
  of every child; a sender of a remote push waits for the reply, or is late and
  goes on without it.
- **Acceptor** (`AcceptorMachine`, `AcceptorTheorems`, `AcceptorLife`). Each section under the
  map mutex is a step; runs interleave accept threads, StopAccept, Join and the
  recycling of sockets.
- **Circuit breaker** (`BreakerMath`, `RecorderMachine`, `RecorderTheorems`,
  `RecorderSerial`, `RecorderOrder`, `BreakerMachine`, `BreakerTheorems`,
  `BreakerWindows`, `BreakerBackoff`, `BreakerVerdicts`, `BreakerObjects`,
  `BreakerSerial`, `BreakerBreaks`). Each atomic operation
  is a step, weak compare-and-exchange included. Reals are exact, and results
  are cut to integers toward zero where the code does.

Where the code falls short of what one would expect of it, the model follows the
code, and a theorem says exactly when the expectation holds:

- An AMF object with an empty name is written without complaint and cannot be
  read back (`AmfRoundTrip.ObjectRoundTrip`).
- Input that breaks off inside an object body, where a name is due, is taken as
  complete; exactly which cuts go unnoticed is `AmfTruncation.BreaksOff`.
- `AMFOutputStream::done` leaves bytes that were never written in the last
  buffer of a bad stream; an object written into one large buffer does so exactly
  when one of its names is too long (`AmfRoundTrip.WriteToBuffer`).
- `AMFArray::operator=` loses the values on self-assignment and drops only half
  of the extra items when it shrinks (`AmfArrays.AssignedExactlyWhen`).
- A call that fails before it is issued, with a code that is retried, goes on
  without timeout; exactly which running calls have a timer is
  `RpcTimers.TimerGuards` (`RpcTheorems.RetriedWithoutTimeout` is a case).
- A single answer EBACKUPREQUEST can leave a timer armed after the end of an RPC
  that succeeds. There is at most one timer, and none after the end, exactly if
  no such answer comes for the current version while a timer is armed and
  another can be added (`RpcTimers.OneTimerIff`, `RpcTimers.ForgedTimer`).
- Once a peer has answered EBACKUPREQUEST, a second delivery of that code, by a
  peer or by the backup timer, trips an internal check; the accounts are in order
  exactly as long as that does not happen (`RpcTheorems.CheckFailsIff`,
  `RpcTheorems.ExactlyOnce`, `RpcTheorems.ForgedBackup`).
- Nodes of a plan may be executed twice, and the client may read a result whose
  select found emptied tables. Neither can happen exactly for plans that are one
  chain of nodes at one site (`PlanChain.OnceIff`, `PlanChain.ResultGoodIff`). A
  given node with children is executed once exactly if what is below it is one
  chain at its site and no other branch starts scans there
  (`PlanChain.NodeOnceIff`).
- The code does not check the reply to a remote push. First selects find good
  rows of all their inputs, in all runs of all plans, exactly if senders wait
  until their rows are stored (`PlanLate.InputsPromiseIff`). In all runs of a
  given plan they do, however early senders give up, exactly if every node with
  children that pushes to another site is one of those executed once
  (`PlanLate.HarmlessIff`).
- The header of the acceptor promises that Join waits until all sockets are
  recycled. That holds in all runs exactly if callers neither listen on
  descriptor 0 nor overlap Joins (`AcceptorTheorems.JoinPromiseIff`).
- The latency average never reaches a latency that has risen, and stops where
  the next step would be below one (`BreakerMath.ReachesIff`,
  `BreakerMath.StopsBelow`). A failed call that took no time lowers the error
  cost (`RecorderSerial.FreeFailureIff`).
- Concurrent calls of a window need not have the effect of any order of them,
  since a failure goes by an average it loaded earlier. One order serves both the
  average and the error cost, in all runs, exactly if failed calls are kept from
  overlapping successful ones (`RecorderOrder.OrderPromiseIff`,
  `RecorderSerial.NoOrderServes`).

`dafny verify dfyconfig.toml` checks the project.

## Model

| member | source | states |
|---|---|---|
| AmfStreams.InputStream.CutN | brpc/src/brpc/amf_inl.h:27-47 | for every split into chunks, cuts the first n bytes of the flat sequence, or all there are, and counts exactly those |
| AmfStreams.InputStream.CutBe | brpc/src/brpc/amf_inl.h:53-107 | fast and slow path give the same big-endian integer as the flat sequence; a short read leaves the missing low bytes zero |
| AmfStreams.InputStream.CheckEmptiness | brpc/src/brpc/amf_inl.h:49-51 | never loses a byte; an empty chunk ahead counts as not empty |
| AmfStreams.PutConcat | brpc/src/brpc/amf_inl.h:116-166 | a sequence of puts equals one put of the concatenation, also across the point where the room ends |
| AmfStreams.PutKeeps | brpc/src/brpc/amf_inl.h:116-166 | stored bytes and room are conserved, nothing stored is lost, bad stays bad, only a lack of room makes a put fail |
| AmfStreams.OutputStream.PutN | brpc/src/brpc/amf_inl.h:116-136 | for every sequence of offered buffers, stores the bytes or what fits and turns bad; pushed bytes equal stored bytes |
| AmfStreams.OutputStream.PutU8 | brpc/src/brpc/amf_inl.h:138-151 | stores one byte in the next buffer that has room, skipping empty ones, or turns bad |
| AmfStreams.OutputStream.PutInt | brpc/src/brpc/amf_inl.h:153-166 | stores an integer in network order, or the leading bytes that fit and turns bad |
| AmfStreams.OutputStream.Done | brpc/src/brpc/amf_inl.h:109-114 | the bytes that the zero-copy stream takes as written, handed out less given back, are those written if and only if the stream was good or its last buffer full |
| AmfValues.SetIsMapUpdate | brpc/src/brpc/amf.h:202-228 | setting a field updates a map: order kept, the name gets the value, every other name keeps its own |
| AmfValues.LessIff | brpc/src/brpc/amf.h:202-228 | names are in the order of std::string: the first difference decides, by unsigned byte or by which name ends |
| AmfReader.ReadStringBody | brpc/src/brpc/amf.cpp:253-279 | short and long strings from any chunking equal the flat reading; a failed read has drained the stream |
| AmfReader.ReadObjectField | brpc/src/brpc/amf.cpp:609-694 | the marker switch on any chunking equals the flat reader, cutting exactly the same bytes |
| AmfReader.ReadObjectBody | brpc/src/brpc/amf.cpp:696-717 | the object loop on any chunking equals the flat reader; it terminates on the bytes left |
| AmfReader.ReadEcmaArrayBody | brpc/src/brpc/amf.cpp:719-736 | the counted loop on any chunking equals the flat reader, whatever count is declared; what that reads is AmfForms.EcmaRoundTrip |
| AmfReader.ReadAmfObject | brpc/src/brpc/amf.cpp:738-758 | reading an object does not depend on the chunking, and popped bytes are exactly the bytes cut |
| AmfReader.ReadArrayItem | brpc/src/brpc/amf.cpp:760-843 | one item on any chunking equals the flat reader |
| AmfReader.ReadArrayBody | brpc/src/brpc/amf.cpp:845-857 | the item loop on any chunking equals the flat reader |
| AmfReader.ReadAmfArray | brpc/src/brpc/amf.cpp:859-875 | reading an array does not depend on the chunking, and popped bytes are exactly the bytes cut |
| AmfReader.BodyEnds | brpc/src/brpc/amf.cpp:696-717 | an object body read with success has cut a matching object-end last or drained the stream, and leaves a suffix |
| AmfReader.ItemsBounded | brpc/src/brpc/amf.cpp:845-857 | a strict array gains no more items than the bytes it cut and than it declares, and keeps the ones it had |
| AmfReader.EcmaSuffix | brpc/src/brpc/amf.cpp:719-736 | an ECMA array of any declared size terminates and leaves a suffix of its input |
| AmfWriter.CompleteIffShortNames | brpc/src/brpc/amf.cpp:1114-1132 | the writer gets to its end, given room, if and only if every name at any depth is below 65536 bytes |
| AmfWriter.WriteField | brpc/src/brpc/amf.cpp:1059-1112 | for every sequence of offered buffers, stores a prefix of the flat encoding of the value, all of it while good |
| AmfWriter.WriteObject | brpc/src/brpc/amf.cpp:1114-1132 | stores a prefix of the flat encoding of an object and its terminator, stopping at the first name or value that fails |
| AmfWriter.WriteArray | brpc/src/brpc/amf.cpp:1134-1144 | stores a prefix of the flat encoding of a strict array, all of it while good |
| AmfRoundTrip.ReadBack | brpc/src/brpc/amf.cpp:609-694 | any value, however nested, is read back from its encoding followed by anything, leaving exactly the rest |
| AmfRoundTrip.EmptyNameRejected | brpc/src/brpc/amf.cpp:696-717 | a value with an empty name at any depth is written but makes the reader fail |
| AmfRoundTrip.ObjectRoundTrip | brpc/src/brpc/amf.cpp:738-758 | reading what was written rebuilds the object and leaves the rest if and only if no name is empty, and fails otherwise |
| AmfRoundTrip.ArrayRoundTrip | brpc/src/brpc/amf.cpp:859-875 | reading what was written rebuilds the array and leaves the rest if and only if no name in it is empty, and fails otherwise |
| AmfRoundTrip.PrefixFree | brpc/src/brpc/amf.cpp:1059-1144 | the encoding is injective and no encoding is a prefix of another |
| AmfRoundTrip.WriteAndReadBack | brpc/src/brpc/amf.cpp:1114-1132 | an object written into any buffers and read back in any chunks: the stream stays good if and only if names are short and the bytes fit, and then the object comes back with nothing left if and only if no name is empty |
| AmfRoundTrip.WriteToBuffer | brpc/src/brpc/amf_inl.h:109-114 | an object written into one buffer with room to spare leaves unwritten bytes taken as written if and only if a name is too long |
| AmfForms.Understood | brpc/src/brpc/amf.cpp:609-857 | objects spelled as plain objects, typed objects or ECMA arrays and strict arrays, in any mix and depth, with fields in any order and repeated, are read to what they stand for, added to what the field already held, leaving exactly the rest |
| AmfForms.MergedHas | brpc/src/brpc/amf.cpp:696-736 | entries with different names, in any order, leave under each name what its entry stands for |
| AmfForms.EcmaRoundTrip | brpc/src/brpc/amf.cpp:719-758 | the fields of an object spelled as an ECMA array come back, leaving the rest, if and only if no name inside the values is empty; names of the array itself may be empty |
| AmfForms.TypedRoundTrip | brpc/src/brpc/amf.cpp:642-653 | an object spelled with a class name comes back as the object if and only if no name is empty |
| AmfTruncation.BreaksOff | brpc/src/brpc/amf.cpp:609-857 | any spelling cut short after k bytes is drained, and read with success if and only if the cut lies in an object body where a name is due, and in the last entry of every array around it |
| AmfTruncation.CountedIsNoticed | brpc/src/brpc/amf.cpp:719-857 | values without object bodies, cut short anywhere, are refused |
| AmfWire.EmitIsWire | brpc/src/brpc/amf.cpp:1059-1144 | every value that is written, byte by byte: markers and lengths as numbers, most significant byte first |
| AmfWire.OtherMarkers | brpc/src/brpc/amf.h:120-139 | the six markers that are refused, and those passed over without a value |
| AmfWire.OtherTops | brpc/src/brpc/amf.cpp:738-875 | which first bytes start an object and an array, and that null stands for an empty one |
| AmfArrays.AssignedExactlyWhen | brpc/src/brpc/amf.cpp:893-905 | assignment makes the arrays equal if and only if at most one item is to be dropped and the source is another array or has no value to lose |
| AmfArrays.AssignedKeepsSource | brpc/src/brpc/amf.cpp:893-905 | assignment from another array keeps the source as a prefix; from n to m items it ends with m + (n - m) / 2 |
| AmfArrays.AmfArray.Copy | brpc/src/brpc/amf.cpp:882-891 | copy construction gives the same sequence |
| AmfArrays.AmfArray.Assign | brpc/src/brpc/amf.cpp:893-905 | the two loops leave exactly the sequence described by Assigned, aliasing included |
| AmfArrays.AmfArray.Clear | brpc/src/brpc/amf.cpp:907-914 | leaves the empty sequence with undefined inline fields |
| AmfArrays.AmfArray.Add | brpc/src/brpc/amf.cpp:916-928 | appends, inline or in the deque |
| AmfArrays.AmfArray.RemoveLast | brpc/src/brpc/amf.cpp:930-940 | drops the last item; an empty array stays empty |
| AmfArrays.AmfArray.SetAt | brpc/src/brpc/amf.h:263-270 | indexing reaches the item of the sequence on both sides of the inline limit |
| RpcMachine.EffectiveMaxRetry | brpc/src/brpc/controller.cpp:329-338 | the retries in force are the allowed number nearest to what was asked for, so the ids to reserve fit the id range |
| RpcTheorems.StepKeeps | brpc/src/brpc/controller.cpp:564-700 | every event keeps the invariant: unfinished version below the current one, attempts and completions balanced, one timer |
| RpcProofs.IssueKeeps | brpc/src/brpc/controller.cpp:981-1195 | the recursion of issuing, failed sends and retries ends and keeps the invariant |
| RpcProofs.EndKeeps | brpc/src/brpc/controller.cpp:816-936 | ending settles the current and the unfinished call and removes the timer |
| RpcTheorems.CallMethodKeeps | brpc/src/brpc/channel.cpp:383-544 | how an RPC stands when CallMethod returns: deadline, reserved retries, and whether a timer guards it |
| RpcTheorems.ExactlyOnce | brpc/src/brpc/controller.cpp:722-936 | whatever the peers answer, the internal checks of a run hold if and only if no event tripped; then each started version is completed exactly once by the end, its socket released, its feedback given, done run once |
| RpcTheorems.BoundedAttempts | brpc/src/brpc/channel.cpp:384-411 | in every run, whatever the peers answer, the versions issued are consecutive, at most max_retry + 1, and each id lies among those reserved at the start |
| RpcTimers.OneTimerIff | brpc/src/brpc/controller.cpp:590-598 | whatever the peers answer, in every state of a run at most one timer is armed and none is left after the end, if and only if no peer reports EBACKUPREQUEST for the current version while a timer is armed, a retry is left and another timer can be added |
| RpcTimers.OneDeadline | brpc/src/brpc/channel.cpp:505-544 | whatever the peers answer, the deadline never moves and no timer or connect limit ever set lies beyond it |
| RpcTimers.TimerGuards | brpc/src/brpc/channel.cpp:505-544 | whatever the peers answer, a running call with a timeout has a timer if and only if CallMethod armed one or an event made it back up a version |
| RpcTimers.ForgedTimer | brpc/src/brpc/controller.cpp:816-820 | one forged answer, no failed check, a successful end, and a timer still armed after it |
| RpcTimers.StartArms | brpc/src/brpc/channel.cpp:505-544 | a call that gets to run has exactly the timer of the backup request, if that comes before the timeout and no stream is opened, else exactly that of the timeout, else none, each with its time |
| RpcTimers.EveryTimer | brpc/src/brpc/controller.cpp:590-598 | in every run a backup timer is set only to the time of the backup request and a timeout only to the deadline |
| RpcTimers.VersionsAreLimited | brpc/src/brpc/controller.cpp:1151-1160 | in every run each version that goes out has its connecting limited to the smaller of its own limit and the deadline |
| RpcRetries.RetriedIff | brpc/src/brpc/controller.cpp:586-650 | in every run, when the current version fails with a code other than 0 and EBACKUPREQUEST, the next version is issued if and only if the code is one to retry and a retry is left; otherwise the RPC ends with that code |
| RpcRetries.StartOutcome | brpc/src/brpc/channel.cpp:484-544 | how a call starts, whatever its options: with version 0, or, when it fails before, with version 1 if the code is one to retry and a retry is left, else by ending with that code |
| RpcRetries.FailureOutcome | brpc/src/brpc/controller.cpp:586-700 | what such a failure leaves: completions in order, failed sends passed over up to the first version that goes out or ends the RPC, and with which code |
| RpcRetries.BackupOutcome | brpc/src/brpc/controller.cpp:590-622 | when the backup request is due the current call stays open and the next version is issued, unless no retry is left or the timeout cannot be armed |
| RpcRetries.EndedFromOutside | brpc/src/brpc/controller.cpp:559-700 | a timeout ends the RPC with ERPCTIMEDOUT and a cancellation with ECANCELED, whatever is left to retry |
| RpcRetries.SuccessOutcome | brpc/src/brpc/controller.cpp:816-936 | a success completes its own call with 0 and the other open one as no longer needed |
| RpcRetries.RetriesRunOut | brpc/src/brpc/controller.cpp:586-650 | each failed answer takes one retry, and the first that finds none left gives the RPC its code |
| RpcRetries.DefaultIsSane | brpc/src/brpc/retry_policy.cpp:27-46 | the default policy retries neither success nor timeout nor cancellation |
| RpcTheorems.StaleMayBeDeleted | brpc/src/brpc/controller.cpp:568-585 | deleting from any run the completions that were stale when they came leaves the same final state |
| RpcTheorems.PastIsInert | brpc/src/brpc/controller.cpp:568-585 | once a version is superseded and not outstanding, all that still arrives for it may be deleted from the rest of any run |
| RpcTheorems.FailedBackupRetires | brpc/src/brpc/controller.cpp:569-579 | a failed answer to the backed-up version completes it exactly once and for good, keeps the accounts in order, and touches neither current call, timers, error code nor issued versions |
| RpcTheorems.HowItEnds | brpc/src/brpc/controller.cpp:586-700 | over every run, CallMethod included, the RPC ends with code 0 if and only if some event was a successful answer to an open version, and with EBACKUPREQUEST if and only if that code was delivered, by an event or the start, with no retry left |
| RpcTheorems.CheckFailsIff | brpc/src/brpc/controller.cpp:590-629 | in every state with accounts in order, an event trips a check if and only if it delivers EBACKUPREQUEST, from a peer or the backup timer, while a backup is outstanding, a retry is left and the timer can be armed; otherwise the accounts stay in order |
| RpcTheorems.ForgedBackup | brpc/src/brpc/controller.cpp:590-629 | a run in which it happens: the RPC ends with a socket never released and a timer left behind |
| RpcTheorems.RetriedWithoutTimeout | brpc/src/brpc/channel.cpp:485-544 | an early failure with a retried code leaves a running call without timer and deadline |
| RpcController.Controller.CallMethod | brpc/src/brpc/channel.cpp:485-544 | the controller is valid afterwards: accounts in order and its timer guarding the call, whichever way the start goes |
| RpcController.Controller.IssueRpc | brpc/src/brpc/controller.cpp:981-1195 | the fields end as the machine's issue with all retries of failed sends; terminates on the retries left |
| RpcTheorems.FailedStart | brpc/src/brpc/controller.cpp:964-979 | a send that fails before the first version is issued leaves accounts and timers in order, retried or ended |
| RpcController.Controller.OnVersionedRpcReturned | brpc/src/brpc/controller.cpp:564-588 | the fields end as the machine's for a version that is current, backed-up, base or stale, with the saved error restored where the code does |
| RpcController.Controller.ConcludeRpc | brpc/src/brpc/controller.cpp:586-700 | the fields end as the machine's decision between backup, retry and end of the RPC |
| RpcController.Controller.EndRpc | brpc/src/brpc/controller.cpp:816-936 | the timer is removed, current and unfinished call are completed with the codes of the machine, done is run |
| RpcController.Controller.Handle | brpc/src/brpc/controller.cpp:1207-1238 | any event that is not a forged code keeps a valid controller valid |
| RpcController.Controller.Perform | brpc/src/brpc/controller.cpp:564-936 | a whole RPC on the object, whatever the peers answer: the checks hold if and only if no event trips, and then every version is completed exactly once, every socket released and done run once |
| RpcShape.StepShape | brpc/src/brpc/controller.cpp:564-700 | one event, even after a failed check: numbering kept, versions left behind stay so, and exactly which events end the RPC with which code |
| PlanProtocol.PlanScan | src/db_server/db.cpp:210-253 | the nested counting loops pick exactly the unfinished nodes of the site whose children are all flagged, in order |
| PlanProtocol.PickedIs | src/db_server/db.cpp:210-253 | membership in what is picked, without reference to the loops |
| PlanProofs.StepSafe | src/db_server/db.cpp:210-331 | every step of every process keeps the finished set closed under children, although flags are read one at a time |
| PlanProofs.StepAwake | src/db_server/db.cpp:240-331 | every step keeps each ready unfinished node covered by a scan to come at its site, by work in hand or by a message |
| PlanProofs.QuietMeansFinished | src/db_server/db.cpp:174-331 | with nothing left in progress every node is finished |
| PlanRows.StepAccounted | src/db_server/db.cpp:255-331 | every step balances selects, rows in flight and stores |
| PlanInputs.StepFed | src/db_server/db.cpp:255-331 | unless a push of a node with children that may be selected again is given up, every step keeps good rows of a finished node delivered, and in their table as long as the parent needs them |
| PlanTermination.StepCosts | src/db_server/db.cpp:174-331 | every step of a process that is not idle lowers a bound on the rest of the run, although scans start further scans |
| PlanTheorems.EveryRunCompletes | src/db_server/db.cpp:174-331 | every schedule is bounded in length, and when nothing is left to do all nodes are finished and the done flag is set |
| PlanTheorems.DoneMeansFinished | src/db_server/db.cpp:255-304 | in every reachable state a set done flag means a finished plan |
| PlanInputs.InputsAreThere | src/db_server/db.cpp:240-331 | in every run in which no push of a node with children is given up, duplicates included, a select of a node whose rows were not delivered, in particular the first, finds good rows of every child at its site |
| PlanInputs.DoneMeansDelivered | src/db_server/db.cpp:255-331 | in such a run a set flag means that good rows were delivered, and a set done flag that a good result was written |
| PlanLate.FirstSelectMisses | src/db_server/db.cpp:289-302 | every plan in which a node with children pushes to another site and can be reached by two scans has a run in which its parent is about to be selected for the first time, all flags below it set, and good rows of the child are missing |
| PlanLate.HarmlessIff | src/db_server/db.cpp:255-331 | first selects find their inputs in all schedules of a plan, whatever pushes are given up, if and only if each node with children that pushes to another site has one chain at its site below it and no other branch starts scans there |
| PlanLate.InputsPromiseIff | src/db_server/db.cpp:289-302 | first selects find their inputs in all runs of all plans if and only if senders wait until their rows are stored |
| PlanDuplicates.Approach | src/db_server/db.cpp:210-331 | from any state in which everything ready has a scan to come, a patient schedule makes a given node ready without touching a spare scan |
| PlanDuplicates.Climb | src/db_server/db.cpp:210-331 | a spare scan below a node becomes one of two scans for that node, once it is ready |
| PlanOnce.Doubled | src/db_server/db.cpp:174-331 | a node with children that has a branch or a change of site below it, or shares its site with scans from another branch, is reached by two scans under a patient schedule |
| PlanAlone.RunAlone | src/db_server/db.cpp:210-331 | under every schedule, pushes given up included, at most one process at a time deals with a node that is alone and what is below it, and none once it is finished |
| PlanDuplicates.FirePair | src/db_server/db.cpp:210-304 | two scans for a ready node both execute it and leave two scans for its parent |
| PlanOnce.ExecutedTwice | src/db_server/db.cpp:174-304 | every plan other than one chain at one site has a patient schedule after which the root was selected twice and the result comes from emptied tables |
| PlanChain.NodeOnceIff | src/db_server/db.cpp:174-331 | a node with children is selected at most once in every schedule if and only if what is below it is one chain at its site and only what is above or below it starts scans there |
| PlanChain.OnceIff | src/db_server/db.cpp:174-331 | every node is selected at most once in every schedule if and only if no node has two children and all are at one site |
| PlanChain.ResultGoodIff | src/db_server/db.cpp:255-269 | the result the client reads comes from a select that saw all its inputs, in every schedule, if and only if no node has two children and all are at one site |
| PlanClean.TablesAreEmptied | src/db_server/db.cpp:296-310 | in every run of every plan, when nothing is left to do the table of a node that was selected once is empty |
| PlanClean.AloneLeavesNothing | src/db_server/db.cpp:296-310 | so are, in every run, the tables of a node that is alone and of all nodes below it |
| AcceptorMachine.Acceptor.StartAccept | brpc/src/brpc/acceptor.cpp:48-92 | starts, or refuses with -1 and the state said, by descriptor, status and creation of the listening socket |
| AcceptorTheorems.StepKeeps | brpc/src/brpc/acceptor.cpp:111-342 | every step of every thread keeps sockets tracked, the listener tied to its descriptor, and each listed socket covered by the stop in progress |
| AcceptorTheorems.NoEscape | brpc/src/brpc/acceptor.cpp:111-150 | in every run, once StopAccept has returned each listed connection is alive and failed or released, or its accept thread is about to fail it |
| AcceptorTheorems.JoinMeansClosed | brpc/src/brpc/acceptor.cpp:162-186 | from the moment Join stops waiting until the next StartAccept no accept thread, no listener and no accepted socket exists, however the run goes on |
| AcceptorTheorems.JoinIsNeverStuck | brpc/src/brpc/acceptor.cpp:241-342 | from every reachable stopping state, threads running to their end and requests letting go lead to a state where Join leaves |
| AcceptorTheorems.JoinPromiseIff | brpc/src/brpc/acceptor.cpp:162-186 | Join keeps its promise in all runs of callers that follow given rules if and only if they neither listen on descriptor 0 nor overlap Joins |
| AcceptorTheorems.BehavedIsDisciplined | brpc/src/brpc/acceptor.cpp:162-186 | a run in which this happens not to occur is a run of disciplined callers, so all of the above holds of it |
| AcceptorLife.ConnectionsAreKept | brpc/src/brpc/acceptor.cpp:250-310 | in every run a connection that nobody failed is released only if StopAccept was called since the acceptor was last started |
| AcceptorLife.ReleasesIffStopped | brpc/src/brpc/acceptor.cpp:280-310 | however the run goes on, an accept thread releases its socket if and only if StopAccept was called, since the last start, before the socket was listed |
| AcceptorLife.UseKeepsAlive | brpc/src/brpc/acceptor.cpp:326-342 | a connection that a request is using is not recycled before the request lets go of it, however the run goes on |
| AcceptorLife.StartsIff | brpc/src/brpc/acceptor.cpp:48-92 | in every reachable state StartAccept makes the acceptor listen if and only if descriptor and socket are there and it neither runs nor stops; otherwise nothing that lives changes |
| AcceptorLife.StopCompletes | brpc/src/brpc/acceptor.cpp:94-150 | from every reachable running state a StopAccept carried to its end leaves no listener, thread or connection once threads and requests have ended |
| AcceptorLife.JoinWaitsIff | brpc/src/brpc/acceptor.cpp:162-186 | in every reachable state Join waits if and only if the acceptor runs or stops, and can leave if and only if nothing listens and no connection lives |
| AcceptorTheorems.StepCovered | brpc/src/brpc/acceptor.cpp:291-313 | listing a connection at any moment of a stop leaves it to the pass of StopAccept or to the thread that lists it |
| AcceptorTheorems.StepTracked | brpc/src/brpc/acceptor.cpp:326-342 | recycling a socket at any moment leaves exactly the living sockets listed or on their way into the map |
| AcceptorTheorems.DescriptorZero | brpc/src/brpc/acceptor.cpp:162-186 | with descriptor 0 a connection is listed after Join has returned |
| AcceptorTheorems.OverlappingJoins | brpc/src/brpc/acceptor.cpp:162-186 | two overlapping Joins leave a listening acceptor that StopAccept ignores |
| BreakerMath.AverageWithin | brpc/src/brpc/circuit_breaker.cpp:114-127 | the average is between the least and the greatest latency it was fed |
| BreakerMath.ReachesFromAbove | brpc/src/brpc/circuit_breaker.cpp:114-127 | when latencies fall to a constant the average reaches it exactly, within as many calls as the difference |
| BreakerMath.ReachesIff | brpc/src/brpc/circuit_breaker.cpp:114-127 | calls of one latency bring the average to it if and only if it was empty or not below |
| BreakerMath.StopsBelow | brpc/src/brpc/circuit_breaker.cpp:114-127 | from below the average is fixed after as many calls as the difference, where the next step up would be below one |
| BreakerMath.CostNeverNegative | brpc/src/brpc/circuit_breaker.cpp:129-164 | no history of failures and successes makes the error cost negative |
| BreakerMath.ForgetsGeometrically | brpc/src/brpc/circuit_breaker.cpp:147-163 | after any history k successes leave at most smooth^k of the cost, strictly less each time |
| BreakerMath.ForgetsEverything | brpc/src/brpc/circuit_breaker.cpp:147-163 | as many successes as the cost has units wipe it out, and so does one more than brings it below the minimum |
| RecorderTheorems.EachCallOnce | brpc/src/brpc/circuit_breaker.cpp:76-164 | under every interleaving each success is averaged in once and each call acts on the cost once, adding its latency capped by an average that was in place, or decaying it |
| RecorderSerial.NoOrderServes | brpc/src/brpc/circuit_breaker.cpp:76-164 | two overlapping calls that end with a cost which neither order of them gives |
| RecorderSerial.SerialIsSequential | brpc/src/brpc/circuit_breaker.cpp:76-164 | calls that do not overlap leave the recorder exactly as sequential calls in their order |
| RecorderOrder.UnmixedHasOrder | brpc/src/brpc/circuit_breaker.cpp:76-164 | from any reached state at rest, calls of which no failed one overlaps a successful one have an order that gives both average and cost |
| RecorderOrder.OrderPromiseIff | brpc/src/brpc/circuit_breaker.cpp:76-164 | one order serves average and cost in all runs if and only if failed calls are kept from overlapping successful ones |
| RecorderTheorems.FillingVerdicts | brpc/src/brpc/circuit_breaker.cpp:88-102 | under every interleaving exactly the first window-full of calls is judged by the error count, and of their errors exactly those within the error percentage of the window pass |
| RecorderTheorems.AverageAlwaysWithin | brpc/src/brpc/circuit_breaker.cpp:114-127 | in every state of every interleaving the average is within the successful latencies since the window was emptied, whatever their sign |
| RecorderTheorems.OnlyFailuresCost | brpc/src/brpc/circuit_breaker.cpp:129-164 | with latencies that are not negative the cost never is, and only failed calls are found unhealthy |
| RecorderTheorems.SuccessesForget | brpc/src/brpc/circuit_breaker.cpp:147-163 | concurrent successes forget errors as sequential ones do |
| RecorderSerial.FreeFailureIff | brpc/src/brpc/circuit_breaker.cpp:76-145 | a failed call raises the error cost if and only if it took time and its cap is not zero; otherwise it lowers the cost as a success does, and a full window finds it healthy |
| BreakerVerdicts.FullVerdictIff | brpc/src/brpc/circuit_breaker.cpp:129-145 | in a full window a failed call adds the smaller of its latency and the capped average, and is healthy if and only if 100 times the cost is within average * window * percent * (1 + epsilon) |
| BreakerVerdicts.FailuresInARow | brpc/src/brpc/circuit_breaker.cpp:76-145 | a full window without error cost finds the k-th failure of average latency healthy if and only if 100 k <= window * percent * (1 + epsilon) |
| BreakerVerdicts.ForgetsNoFaster | brpc/src/brpc/circuit_breaker.cpp:147-163 | k successes leave at least smooth^k of an error cost, up to what cutting to integers takes |
| BreakerVerdicts.WindowForgets | brpc/src/brpc/circuit_breaker.cpp:64-75 | with the smoothing factor the window is built with, a window of successes leaves at most the share epsilon of any error cost |
| BreakerBreaks.FreshBreaks | brpc/src/brpc/circuit_breaker.cpp:177-211 | n failed calls break a fresh breaker, once, if and only if n is beyond the error percentage of the long or of the short window |
| BreakerBreaks.WarmBreaks | brpc/src/brpc/circuit_breaker.cpp:177-211 | n failed calls of average latency break a breaker with full windows if and only if n is beyond what the long or the short window allows |
| BreakerTheorems.LatchHolds | brpc/src/brpc/circuit_breaker.cpp:177-211 | in every run a call that has returned false has set the latch, and from its setting until Reset every later call that is not ELIMIT returns false |
| BreakerTheorems.OneIsolationPerBreak | brpc/src/brpc/circuit_breaker.cpp:206-211 | in every run one isolation is counted and the duration updated once for each break, however many calls break at once |
| BreakerTheorems.DurationWithin | brpc/src/brpc/circuit_breaker.cpp:213-227 | at any moment the duration is between minimum and maximum |
| BreakerWindows.BothAccount | brpc/src/brpc/circuit_breaker.cpp:177-197 | under every interleaving both windows account for exactly the calls they were told about, each success averaged in once and each call acting on the cost once |
| BreakerBackoff.DurationFollowsTime | brpc/src/brpc/circuit_breaker.cpp:199-227 | between settled moments of any run, with time counted in ticks since the latest Reset: k breaks that each come sooner than the maximum take a duration d to min(max, d * 2^k), a last one that comes later takes it to the minimum, and each break counts once |
| RecorderSerial.AloneIsSequential | brpc/src/brpc/circuit_breaker.cpp:76-103 | the atomic steps of an uninterrupted call add up to the sequential function that the methods are proved against |
| BreakerObjects.EmaErrorRecorder.UpdateLatency | brpc/src/brpc/circuit_breaker.cpp:114-127 | the compare-and-exchange loop averages into a value that was really in place, whatever others store meanwhile |
| BreakerObjects.EmaErrorRecorder.UpdateErrorCost | brpc/src/brpc/circuit_breaker.cpp:129-164 | adds the capped amount and compares with the maximum, or decays a value of the cost that was really in place, whatever others store meanwhile |
| BreakerObjects.EmaErrorRecorder.OnCallEnd | brpc/src/brpc/circuit_breaker.cpp:76-103 | new state and verdict of a call on its own |
| BreakerObjects.EmaErrorRecorder.Reset | brpc/src/brpc/circuit_breaker.cpp:105-112 | a partial window is emptied, a full one keeps its average and its count |
| BreakerSerial.CallAlone | brpc/src/brpc/circuit_breaker.cpp:177-197 | from any state of the concurrent machine, the steps of an uninterrupted call add up to what the object does, with the same answer |
| BreakerObjects.CircuitBreaker.OnCallEnd | brpc/src/brpc/circuit_breaker.cpp:177-197 | the answer is false exactly when the breaker is broken afterwards; ELIMIT and a broken breaker change nothing; one isolation for each break; the duration stays in bounds |
| BreakerSerial.ResetAlone | brpc/src/brpc/circuit_breaker.cpp:199-204 | a Reset that no call overlaps does what Reset of the object does |
| BreakerSerial.BreakAlone | brpc/src/brpc/circuit_breaker.cpp:206-227 | the steps of an uninterrupted isolation add up to what the object does: the first one counts and lengthens the duration, others change nothing |

## Left out

- The AMF readers and writers that go through protobuf reflection, and those of a single string, number, boolean or null.
- The union inside an AMFField: a value is a datatype, and the tag of a string follows from its length as SetString chooses it.
- AMF objects and arrays are threaded through the readers as values; updates in place inside a parent are not modelled.
- AmfArrays.AmfArray.Assign: does not model a source that is nested inside the target and destroyed while it is copied.
- Strings of 2^31 bytes and more and arrays of 2^32 items, whose lengths the C++ code truncates.
- AMF numbers are their 64-bit patterns; nothing is said about floating point.
- Sockets, load balancers, connection pools, streams, authentication, spans, SSL and allocation failure in an RPC; the result of a send is a parameter.
- Sends and timers that fail with the internal code EBACKUPREQUEST.
- User-supplied retry policies that retry a success, a timeout or a cancellation.
- SQL text, the building of the plan, process creation and the naming of keys in etcd; messages of the plan protocol are delivered, and a result file is not overwritten by another of the same second.
- PlanInputs.InputsAreThere: rows that were stored twice count as good; that they can be is PlanDuplicates.FirePair.
- PlanChain.NodeOnceIff: leaves are excepted; whether one is selected twice also depends on the order in which a scan takes the nodes it picked.
- One query at a time: the done flag and the tables are not shared between plans.
- AcceptorTheorems.NoEscape: assumes that a listing which yields the mutex returns every id present throughout, as the flat map's iterator hints promise.
- AcceptorTheorems.JoinMeansClosed: for callers that start again only after StopAccept has returned, as the header demands.
- The loops of StopAccept and ListConnections are steps of the machine, one per connection and one per listing, not loops of a method.
- The thread that closes idle connections, beyond the fact that any connection may be failed at any time.
- BreakerTheorems.OneIsolationPerBreak: for Resets that no call overlaps, which circuit_breaker.h demands of the caller; socket.cpp resets a breaker in the shared part of a socket, and an overlapping Reset is not modelled.
- Wrap-around of 64-bit latencies and costs and the rounding of double.
- src/db_server/DQLexecute.cpp, a near copy of db.cpp, the SQL parser, the client and the remaining brpc components.
