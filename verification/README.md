# Verified models of the RPC framework's protocols and codecs

This project models the parts of the C++ RPC framework where correctness is hard to see from the
code, and proves what they promise. It covers the following components.

- **ParallelChannel rendezvous** (`ParallelRendezvous`, `ParallelCancel`, `ParallelOutcome`): any number of sub calls
  and the main call meet on one atomic word; every atomic operation and every group of member reads
  is one step of a machine, and the theorems hold for every interleaving.
- **Client call protocol** (`RetryProtocol`, `RetryTheorems`, `RetryChecks`, `RetryOutcomes`,
  `RetryMoves`, `RetryExclusion`, `ExcludedServers`, `Controller`): tries, retries, the parked backup call,
  versioned call ids and the settling of every try. Sockets, load balancer, timers, memory and retry
  policy are arbitrary oracles; events carry any id and any code and are delivered one at a time, as
  the locked call id does. The `Controller` object is proved to do exactly what the protocol functions
  say, and so to have what is proved of them.
- **Progressive attachment** (`ChunkedBody`, `ProgressiveAttachment`): many writers race with one
  flusher; the wire is decoded by section 4.1 of RFC 7230.
- **AMF 0** (`AmfStream`, `AmfCodec`, `AmfGrammar`, `AmfLanguage`, `AmfTheorems`, `AmfTruncation`,
  `AmfReader`, `AmfWriter`, `AmfArray`): a recursive reader and writer over streams of blocks, the format's grammar
  byte by byte and its meaning, what becomes of truncated input, and the array with four inline items.
- **Work stealing queue** (`WorkStealingQueue`): one owner and any number of thieves over loads, stores
  and compare-exchanges.
- **Socket write queue** (`SocketWrite`, `SocketProgress`): any number of threads push requests by one exchange, and hand
  the right to write to each other.
- **Partitioning** (`Partitioner`, `DynamicPartitioner`), **InputMessenger**, **Acceptor**,
  **CircuitBreaker** with its laws (`CircuitBreakerLaws`) and races (`CircuitBreakerRaces`), and
  **memcache requests** (`Memcache`, `MemcacheCommands`).

Where the code falls short of what its comments or callers would expect, the model keeps the code and
a theorem states exactly when the expectation holds:

- `RetryChecks.SettlesExactly`: an RPC settles everything iff no backup request found a parked call;
  a response may carry the code of a backup request (`RetryChecks.EchoedBackupLosesFeedback`).
- `RetryChecks.ChecksExplained`: CHECKs fire exactly then, and when a retryable code arrives on another
  id than the current one.
- `ChunkedBody.ChunkReadsBack`: a chunk reads back iff it has 1 to 2^32 - 1 bytes.
- `AmfTheorems.ValueReads`: reading back fails iff some object has a field with an empty name.
- `AmfTruncation.TruncationAcceptedExactly`: truncated input is refused iff it does not end inside a
  name of an object still being read, at any depth.
- `AmfLanguage.AcceptedExactly`: any bytes are accepted iff they are a phrase of the format, or one broken
  off inside a name at the end of the stream.
- `AmfArrays.AssignmentCopies`: assignment copies iff the left side is at most one item longer.
- `Acceptor.JoinSafeExactly`: Join waits for the listener iff its descriptor is not 0.
- `CircuitBreaker.NoRecovery`: calls ending with ELIMIT are answered true even while broken; so may be
  calls already past the test (`CircuitBreakerRaces.PassedMayAnswerTrue`), but no later ones.
- `Memcache.OneFrame`: a request is one frame iff its body is below 2^32 bytes.
- `Memcache.FrameDecodesExactly`: a request is read back iff its key and numbers fit their fields too.

Assumptions about the environment: `RetryChecks.EveryRunSettlesOnce` alone assumes a policy that
declines success and what arrives on the base id; a progressive attachment is destroyed only after
MarkRPCAsDone returned and no writer is left, from which the first CHECK of its destructor follows; a
failed flushing write breaks the socket, and a broken socket accepts nothing more; load balancers are
sets that report how many servers a batch changed; creating a sub channel succeeds; a listing of
connections is a snapshot; a socket is recycled only after its additional reference was dropped and the
accepting thread let go of it; arithmetic of the circuit breaker is over the reals with the floor taken
where a double is assigned to an integer.

`dafny verify dfyconfig.toml` checks the whole project.

## Model

| member | source | states |
|---|---|---|
| ParallelRendezvous.StepInv | brpc/brpc/parallel_channel.cpp:186-298 | every step of every party keeps the books between the atomic word, the failure count, the stages of all parties and the id |
| ParallelRendezvous.AtMostOneCompletion | brpc/brpc/parallel_channel.cpp:223-298 | in every run at most one party completes, only after all sub calls added themselves and Run ran; the failure count is exact; others are cancelled by at most one party, exactly when fail_limit is reached |
| ParallelRendezvous.NoUseAfterFree | brpc/brpc/parallel_channel.cpp:223-298 | no step that dereferences the object is enabled after the object was destroyed, in any reachable state |
| ParallelRendezvous.QuiescentMeansCompleted | brpc/brpc/parallel_channel.cpp:186-298 | no run gets stuck: where no step is left, the RPC completed exactly once and its id is destroyed |
| ParallelRendezvous.RunsAreBounded | brpc/brpc/parallel_channel.cpp:186-298 | every step uses up a measure, so runs from any reachable state are finite |
| ParallelRendezvous.RunLength | brpc/brpc/parallel_channel.cpp:186-298 | a bound on the length of every run in the number of sub calls |
| ParallelCancel.FailLimitCancelsOthers | brpc/brpc/parallel_channel.cpp:223-298 | in every run no sub call is cancelled by another one until fail_limit failures are counted; then one failed sub call cancels all others and no one else |
| ParallelCancel.MainCancelsAllPending | brpc/brpc/parallel_channel.cpp:253-298 | in every run the main call, timed out or cancelled, cancels all sub calls iff it saw unfinished ones, and none otherwise; a look while some are unfinished sees them |
| ParallelCancel.EveryFailureCounts | brpc/brpc/parallel_channel.cpp:223-241 | in every run the failure count is the number of sub calls that returned with an error, as soon as they counted themselves |
| ParallelOutcome.MergeResponses | brpc/brpc/parallel_channel.cpp:311-346 | the merging loop counts failed calls plus FAIL merges; FAIL_ALL or an exception fails the whole call; merged are exactly the successful responses before the first exception, even then |
| ParallelOutcome.UnifyErrors | brpc/brpc/parallel_channel.cpp:349-372 | one shared cause is reported, ETOOMANYFAILS for two different ones, ECANCELED for none |
| ParallelOutcome.OnComplete | brpc/brpc/parallel_channel.cpp:311-383 | success iff failures stay below fail_limit and no merge fails everything, whatever error the main call had; otherwise which error wins |
| ParallelOutcome.CounterIsFailedCalls | brpc/brpc/parallel_channel.cpp:223-241 | in every run the counter read by OnComplete is the number of sub calls with an error code |
| ParallelOutcome.PlanCall | brpc/brpc/parallel_channel.cpp:588-672 | when a call is planned or rejected, and with the code of the first obstacle: a controller failed beforehand, no response, no channels, a refusing mapper, memory, all channels skipped, the timer; fail_limit is clamped to 1..ndone |
| ParallelOutcome.CreateSubDoneMap | brpc/brpc/parallel_channel.cpp:148-158 | channel i maps to the number of unskipped channels before it, skipped ones to -1 |
| ParallelOutcome.SubChannelController | brpc/brpc/parallel_channel.cpp:411-422 | channel i gets the controller of its own sub call, or none when skipped or out of range |
| Excluded.HoldsLastAdditions | brpc/brpc/excluded_servers.h:81-87 | the queue is always the last additions without immediate repetitions, up to its capacity |
| Excluded.RecentAdditionsExcluded | brpc/brpc/excluded_servers.h:81-97 | each of the last capacity-many additions is excluded |
| Excluded.ExcludedServers.Add | brpc/brpc/excluded_servers.h:81-87 | the ring buffer does what the queue of additions does |
| Excluded.ExcludedServers.ElimPush | brpc/butil/containers/bounded_queue.h:111-119 | pushing into a full ring drops the oldest element and keeps the order of the others |
| Excluded.ExcludedServers.IsExcluded | brpc/brpc/excluded_servers.h:89-97 | true iff the server is in the queue |
| RetryTheorems.EveryRunAccounts | brpc/brpc/controller.cpp:596-796 | in every run, for every sequence of events: the RPC ends at most once, at most max_retry + 1 tries are issued, once each and all on ids of the reserved range; once ended each try is settled once, each requested feedback given once and each sending socket released once, except exactly for the parked calls that were overwritten |
| RetryChecks.ChecksExplained | brpc/brpc/controller.cpp:600-734 | in every run, for all events and oracles: the lost tries are exactly those at which a backup request, brought by an event or by a failed sending, found a parked call while timer and memory let it go on; the number of fired CHECKs is theirs plus the events retried although they did not come from the current call |
| RetryChecks.SettlesExactly | brpc/brpc/controller.cpp:655-688 | an ended RPC has settled everything iff no try was lost that way |
| RetryChecks.HandleFires | brpc/brpc/controller.cpp:600-734 | the same for one event: which CHECKs fire and which tries are lost, by what a caller can see before the event |
| RetryChecks.BackupFires | brpc/brpc/controller.cpp:680-685 | the CHECK at parking fires exactly when a call is parked already and timer and memory allow; that call is lost first, then those of the sending that follows |
| RetryChecks.FirstBackupIsSafe | brpc/brpc/controller.cpp:655-688 | in every run with at most one backup request, counting failed sendings with that code, no try is lost; with none no call is parked |
| RetryChecks.DeclinedNeverStray | brpc/brpc/controller.cpp:690-695 | if the policy declines success and what arrives on the base id, nothing is retried on a wrong id |
| RetryChecks.EveryRunSettlesOnce | brpc/brpc/controller.cpp:596-796 | with both, no CHECK fires and an ended RPC has settled, fed back and released everything exactly once |
| RetryChecks.EchoedBackupLosesFeedback | brpc/brpc/policy/baidu_rpc_protocol.cpp:601-633 | a receivable run (backup timer, a response carrying the code of a backup request, timeout) in which a selected server never gets its feedback |
| RetryChecks.AnswerOnBaseFires | brpc/brpc/policy/baidu_rpc_protocol.cpp:601-633 | a response on the base id with a retryable code fires the CHECK of the retry branch |
| RetryTheorems.RunSound | brpc/brpc/channel.cpp:428-455 | the protocol's invariant holds after every sequence of events whatever, starting from CallMethod |
| RetryTheorems.HandleSound | brpc/brpc/controller.cpp:596-796 | every event, on any id and with any code, keeps the invariant |
| RetryTheorems.ReturnedSound | brpc/brpc/controller.cpp:600-734 | OnVersionedRPCReturned keeps it through all its mutual recursion |
| RetryTheorems.BackupSound | brpc/brpc/controller.cpp:655-688 | a backup request keeps it, also when it finds a parked call: that call is then accounted as lost |
| RetryTheorems.RetrySound | brpc/brpc/controller.cpp:690-733 | a retry, which RetryMoves.RetryIsMade shows to be made, keeps the invariant of all runs |
| RetryTheorems.IssueSound | brpc/brpc/controller.cpp:1088-1155 | issuing a try keeps it, whether sending succeeds or fails at any stage |
| RetryTheorems.SendFailedSound | brpc/brpc/controller.cpp:1060-1086 | a failed sending keeps it |
| RetryTheorems.EndSettles | brpc/brpc/controller.cpp:912-972 | EndRPC on any id settles everything still open and leaves no debt but the lost calls |
| RetryTheorems.EndOver | brpc/brpc/controller.cpp:912-972 | from the invariant, EndRPC on any id leads to an ended RPC with no debt but the lost calls |
| RetryOutcomes.SupersededIsHarmless | brpc/brpc/controller.cpp:600-616 | in every run an event of a superseded id, unless it is the parked call's success, changes neither current call, tries nor error and fires no CHECK; it changes nothing at all unless it settles and drops the parked call |
| RetryOutcomes.SuccessEnds | brpc/brpc/controller.cpp:919-972 | in every run a success of the current or parked call ends the RPC without error for good; the loser is settled with EBACKUPREQUEST or ECANCELED |
| RetryOutcomes.FailureEnds | brpc/brpc/controller.cpp:651-654 | in every run a failure on the base or current id that the policy declines, or any failure without retries left, ends the RPC for good with that code for every open call |
| RetryOutcomes.EndsOnLiveId | brpc/brpc/controller.cpp:600-654 | in every run the event that ends the RPC carries the base id, the current id, or the parked id with a success |
| RetryOutcomes.DropsNeedBackups | brpc/brpc/controller.cpp:606-616 | in every run the parked calls dropped or lost, plus the one still parked, are at most the backup requests |
| RetryOutcomes.EndedStays | brpc/brpc/controller.cpp:912-972 | after the end nothing changes any more |
| RetryMoves.RetryIsMade | brpc/brpc/controller.cpp:651-733 | in every run, for every configuration and environment: an event that is not intercepted, with a code the policy retries, while retries and memory are left, settles the current try with its code and issues the next one, which waits if its sending succeeds; the parked call stays |
| RetryMoves.RetryIssues | brpc/brpc/controller.cpp:690-733 | the same for one call of the retry branch in any state |
| RetryMoves.RetryWithoutMemory | brpc/brpc/controller.cpp:696-704 | without memory for the servers to avoid such an event ends the RPC with ENOMEM for every open call |
| RetryMoves.BackupIsMade | brpc/brpc/controller.cpp:655-688 | in every run, for every configuration and environment: a backup request, while retries, timer and memory are left, parks the current try unsettled and issues the next one |
| RetryMoves.BackupThatFails | brpc/brpc/controller.cpp:657-685 | otherwise a backup request ends the RPC for every open call, with the timer's error or ENOMEM; when memory for the parked call itself runs out, a call parked before is not settled |
| RetryMoves.FailedSendingIsAnEvent | brpc/brpc/controller.cpp:1060-1086 | a try whose sending fails is handled exactly as a failure arriving on its id |
| RetryMoves.StartIssues | brpc/brpc/channel.cpp:428-455 | CallMethod issues try 0, or treats its failure like one of try 0 |
| RetryMoves.AllRetriesAreMade | brpc/brpc/controller.cpp:596-733 | a policy that keeps retrying and servers that keep failing: after n failures the tries 0 to n were issued, for every n up to max_retry |
| RetryMoves.LastAnswerEnds | brpc/brpc/controller.cpp:651-654 | the failure of the last of them ends the RPC with its code and issues nothing more |
| RetryExclusion.EarlierServersExcluded | brpc/brpc/controller.cpp:668-678 | with max_retry at most 8 every server selected earlier is excluded at every later selection, in every run |
| RetryExclusion.RecentServersExcluded | brpc/brpc/controller.cpp:696-706 | with more retries the 8 most recently added servers are excluded |
| RetryExclusion.RunDuring | brpc/brpc/controller.cpp:1135-1139 | in every run the excluded set handed to a selection is what the additions so far leave |
| RetryExclusion.AvoidBefore | brpc/brpc/controller.cpp:696-706 | before the next try every selected server has been added |
| ControllerObject.Controller.OnReturned | brpc/brpc/controller.cpp:596-796 | the object's handler does exactly what the protocol function says |
| ControllerObject.Controller.OnBackupRequest | brpc/brpc/controller.cpp:655-688 | as above, for the backup branch |
| ControllerObject.Controller.OnRetry | brpc/brpc/controller.cpp:690-733 | as above, for the retry branch; with RetryMoves.RetryIssues the try settled is the current one and the next one is issued |
| ControllerObject.Controller.OnSendFailed | brpc/brpc/controller.cpp:1060-1086 | as above, for HandleSendFailed |
| ControllerObject.Controller.Issue | brpc/brpc/controller.cpp:1088-1155 | as above, for IssueRPC |
| ControllerObject.Controller.End | brpc/brpc/controller.cpp:912-972 | as above, for EndRPC |
| ControllerObject.Controller.Serve | brpc/brpc/channel.cpp:428-455 | a whole RPC on the object: it ends at most once, tries stay within max_retry + 1 and the reserved ids, and once ended every try is settled once and feedback and sockets are paid back but for lost calls |
| Bytes.BigEndianRoundTrip | brpc/brpc/amf_inl.h:64-107 | a number that fits its width is read back |
| Bytes.BigEndianWraps | brpc/brpc/memcache.cpp:345-356 | a wider number is read back modulo the width |
| ChunkedBody.FillDigits | brpc/brpc/progressive_attachment.cpp:83-91 | the loop writes the hexadecimal digits of the size in order |
| ChunkedBody.AppendChunkHead | brpc/brpc/progressive_attachment.cpp:75-94 | the size in hexadecimal and a line end; for size 0 the digit is missing |
| ChunkedBody.AppendAsChunk | brpc/brpc/progressive_attachment.cpp:96-116 | head, data and line end, or only the data before HTTP 1.1 |
| ChunkedBody.ChunkReadsBack | brpc/brpc/progressive_attachment.cpp:75-116 | an RFC 7230 decoder reads the chunk back iff it has 1 to 2^32 - 1 bytes |
| ChunkedBody.BodyReadsBack | brpc/brpc/progressive_attachment.cpp:48-56 | chunks followed by the terminating chunk decode to the concatenated data |
| Progressive.FlusherFinishes | brpc/brpc/progressive_attachment.cpp:199-224 | whatever the writers do, at most four writes and five lock acquisitions; the fourth write is followed by returning; the buffer is empty from then on |
| Progressive.WireIsPrefix | brpc/brpc/progressive_attachment.cpp:118-224 | in every run, whatever fails, the wire is the chunks of a prefix of the accepted writes, each once and in order |
| Progressive.NothingLost | brpc/brpc/progressive_attachment.cpp:118-224 | unless data was dropped, wire, bytes in flight and buffer together are all accepted chunks in order |
| Progressive.DroppedOnlyOnFailure | brpc/brpc/progressive_attachment.cpp:202-210 | accepted data is dropped only if the socket broke or the RPC failed |
| Progressive.DestructorChecks | brpc/brpc/progressive_attachment.cpp:44-56 | whenever the destructor can run the flusher is through and the buffer is empty; it ends the body iff the RPC succeeded, HTTP is at least 1.1 and the socket works |
| Progressive.EndedBodyDecodes | brpc/brpc/progressive_attachment.cpp:44-56 | an ended body decodes to exactly the accepted data, in every interleaving |
| Progressive.WriteAnswersExactly | brpc/brpc/progressive_attachment.cpp:118-183 | in every run: until the flusher returned, non-empty data is buffered iff the buffer is below its limit and the flusher has not taken the buffer more than three times, and refused as overcrowded otherwise; after that it goes to the socket directly iff the RPC did not fail, and is refused as cancelled otherwise; nothing else changes |
| Progressive.FlusherLeavesExactly | brpc/brpc/progressive_attachment.cpp:199-224 | in every run the flusher returns, when it holds the lock, iff nothing is buffered, one of its writes failed or the RPC failed; otherwise it writes all that is buffered |
| Progressive.AcceptedIsAcknowledged | brpc/brpc/progressive_attachment.cpp:118-183 | in every run the accepted data is exactly the data whose writers were told it was taken, in their order |
| Progressive.RunInv | brpc/brpc/progressive_attachment.cpp:118-224 | every step of writers, flusher, socket and destructor keeps the invariant |
| Progressive.StepInv | brpc/brpc/progressive_attachment.cpp:118-224 | the same for one step |
| Progressive.Attachment.Write | brpc/brpc/progressive_attachment.cpp:118-183 | one step of the protocol that keeps its invariant; the answer is the one WriteAnswersExactly describes, empty data is refused; buffered data comes behind everything accepted before, data written directly finds nothing buffered, refused data changes nothing |
| Progressive.Attachment.Flush | brpc/brpc/progressive_attachment.cpp:202-217 | one step of the protocol that keeps its invariant; what it takes out to send is all that was accepted and not sent, in order and at most four times; on leaving, the RPC is marked and nothing is buffered |
| AmfStream.AMFInputStream.CutN | brpc/brpc/amf_inl.h:27-47 | for every split into blocks: the same bytes, remainder and counter as on the flat bytes |
| AmfStream.AMFInputStream.CutUint | brpc/brpc/amf_inl.h:53-107 | the big-endian value, padded with zeros when the stream is short, with the fast path equal to the slow one |
| AmfStream.AMFInputStream.CheckEmptiness | brpc/brpc/amf_inl.h:49-51 | nothing is consumed; true iff no block is left |
| AmfStream.AMFOutputStream.PutN | brpc/brpc/amf_inl.h:116-136 | for every sequence of blocks: the bytes are appended as far as space reaches, the counter is exact, and the stream turns bad iff they do not fit |
| AmfStream.AMFOutputStream.PutU8 | brpc/brpc/amf_inl.h:138-151 | the same for one byte |
| AmfStream.AMFOutputStream.PutUint | brpc/brpc/amf_inl.h:153-166 | the same for big-endian numbers |
| AmfStream.AMFOutputStream.Done | brpc/brpc/amf_inl.h:109-114 | the underlying stream then ends exactly after the bytes put |
| AmfTheorems.ValueReads | brpc/brpc/amf.cpp:609-875 | every well-formed value is written completely, and reading it with anything behind it gives back the value and exactly what was behind, unless some object has an empty field name; then reading fails |
| AmfTheorems.FieldsRead | brpc/brpc/amf.cpp:696-717 | the same for the fields of an object, read after others |
| AmfTheorems.ItemsRead | brpc/brpc/amf.cpp:845-857 | the same for the items of an array |
| AmfTheorems.StringValueReads | brpc/brpc/amf.cpp:253-279 | short and long strings read back, with the marker chosen by their length |
| AmfTheorems.ObjectRoundTrip | brpc/brpc/amf.cpp:738-758 | ReadAMFObject into a fresh object after WriteAMFObject |
| AmfTheorems.ArrayRoundTrip | brpc/brpc/amf.cpp:859-875 | ReadAMFArray into a fresh array after WriteAMFArray |
| AmfTheorems.PrefixFree | brpc/brpc/amf.cpp:1059-1144 | no encoding is a prefix of another one |
| AmfGrammar.NodeReads | brpc/brpc/amf.cpp:609-694 | every phrase of the format, with its literal marker bytes, reads as its meaning and leaves what follows it: numbers, booleans, strings, objects, null, undefined, ECMA arrays, strict arrays, long strings, typed objects |
| AmfGrammar.EntriesRead | brpc/brpc/amf.cpp:696-717 | the same for the entries of an object, later ones replacing earlier ones of the same name |
| AmfGrammar.EcmaReads | brpc/brpc/amf.cpp:719-736 | the same for the entries of an ECMA array, of which exactly the announced number is read |
| AmfGrammar.ObjectReadsExactly | brpc/brpc/amf.cpp:738-758 | ReadAMFObject accepts objects, ECMA arrays and null with their meaning, and no phrase of another kind |
| AmfGrammar.ArrayReadsExactly | brpc/brpc/amf.cpp:859-875 | ReadAMFArray accepts strict arrays and null with their meaning, and no phrase of another kind |
| AmfGrammar.UnsupportedKindsFail | brpc/brpc/amf.cpp:617-693 | movie clips, references, dates, record sets, XML documents, AVM+ objects and empty input are refused |
| AmfGrammar.WriterPrints | brpc/brpc/amf.cpp:1059-1144 | the writer puts out the phrase of the value, byte by byte |
| AmfGrammar.NodeOfMeans | brpc/brpc/amf.cpp:1059-1144 | the phrase the writer puts out means the value |
| AmfGrammar.EcmaRoundTrip | brpc/brpc/amf.cpp:719-736 | the fields of an object, encoded as an ECMA array, read as that object, alone and as a value |
| AmfGrammar.TypedRoundTrip | brpc/brpc/amf.cpp:639-650 | the fields of an object, encoded as a typed object of any class name, read as that object |
| AmfLanguage.AcceptedExactly | brpc/brpc/amf.cpp:609-875 | for all bytes, read into any field: they are accepted with a value and a rest iff they are a phrase of that meaning followed by that rest, or a phrase broken off inside the name of a field or a class, at any depth, whose enclosing arrays have nothing left to read, followed by nothing |
| AmfLanguage.OpenReads | brpc/brpc/amf.cpp:609-736 | a broken phrase at the end of the stream is read as the entries and items before the break |
| AmfLanguage.ValueBack | brpc/brpc/amf.cpp:609-736 | whatever bytes are accepted, there is such a phrase |
| AmfTheorems.TruncationAccepted | brpc/brpc/amf.cpp:696-717 | the direct case: a prefix of an object's encoding that ends inside one of its names, or inside its end, is accepted with only the fields before it |
| AmfTruncation.TruncationAcceptedExactly | brpc/brpc/amf.cpp:609-875 | a proper prefix of any readable value's encoding is accepted iff it ends inside a name or the end of an object that is still being read in the last place, however deeply nested in fields or last items; and which value is then read |
| AmfTruncation.ObjectTruncation | brpc/brpc/amf.cpp:738-758 | the same for ReadAMFObject |
| AmfTruncation.FieldsCut | brpc/brpc/amf.cpp:696-717 | the same for fields read after others |
| AmfTruncation.ItemsCut | brpc/brpc/amf.cpp:845-857 | the same for the items of an array: all but the last must be complete |
| AmfTheorems.FieldsSuffix | brpc/brpc/amf.cpp:696-717 | on any input, what an accepted object leaves is a suffix preceded by the end marker, unless the stream ran out |
| AmfTheorems.ValueSuffix | brpc/brpc/amf.cpp:609-694 | on any input a reader leaves a suffix of it |
| AmfTheorems.ValueOrdered | brpc/brpc/amf.cpp:609-694 | whatever bytes arrive, every object read is a map with strictly increasing names |
| AmfTheorems.InsertSorted | brpc/brpc/amf.cpp:221-251 | storing a field keeps the names strictly increasing |
| AmfTheorems.LookupInsert | brpc/brpc/amf.cpp:221-251 | a stored field is found again, others are untouched |
| AmfReader.ReadStringBody | brpc/brpc/amf.cpp:253-279 | the reader over blocks does what the flat one does; a failed read uses up the stream |
| AmfReader.ReadScalarBody | brpc/brpc/amf.cpp:617-693 | the same for values without nesting, refused and unknown markers |
| AmfReader.ReadInto | brpc/brpc/amf.cpp:609-694 | the same for any value, read into a slot that may hold one |
| AmfReader.ReadObjectBody | brpc/brpc/amf.cpp:696-717 | the same for the loop over an object's fields |
| AmfReader.ReadEcmaArrayBody | brpc/brpc/amf.cpp:719-736 | the same for ECMA arrays; by AmfGrammar.EcmaReads every entry is stored under its own name with its own value |
| AmfReader.ReadArrayBody | brpc/brpc/amf.cpp:845-857 | the same for strict arrays |
| AmfReader.ReadAMFObject | brpc/brpc/amf.cpp:738-758 | the same for a whole object, with null as an object without fields |
| AmfReader.ReadAMFArray | brpc/brpc/amf.cpp:859-875 | the same for a whole array, with null as an array without items |
| AmfWriter.WriteString | brpc/brpc/amf.cpp:944-954 | the stream receives the string's encoding, as far as space reaches |
| AmfWriter.WriteField | brpc/brpc/amf.cpp:1059-1112 | for every value and every state of the stream: a good stream receives the encoding cut where space ends and stays good iff all of it fits and no name is too long; a bad one receives only the fixed part the code still puts |
| AmfWriter.WriteObject | brpc/brpc/amf.cpp:1114-1132 | the same for objects, although the loop gives up early |
| AmfWriter.WriteArray | brpc/brpc/amf.cpp:1134-1144 | the same for arrays |
| AmfArrays.AssignmentCopies | brpc/brpc/amf.cpp:893-905 | assignment makes a copy iff the left side is at most one item longer |
| AmfArrays.AssignmentKeepsSurplus | brpc/brpc/amf.cpp:901-903 | an assignment after which an old item is left |
| AmfArrays.AMFArray.Assign | brpc/brpc/amf.cpp:893-905 | the right side's items followed by half of the surplus, also for self-assignment |
| AmfArrays.AMFArray.Shrink | brpc/brpc/amf.cpp:901-903 | the loop removes only every other surplus item |
| AmfArrays.AMFArray.CopyItems | brpc/brpc/amf.cpp:898-900 | the first items are overwritten, the others kept |
| AmfArrays.AMFArray.Copy | brpc/brpc/amf.cpp:882-891 | the copy has the same items in its own storage |
| AmfArrays.AMFArray.AddField | brpc/brpc/amf.cpp:916-928 | one undefined item is appended, inline or in the deque |
| AmfArrays.AMFArray.RemoveLastField | brpc/brpc/amf.cpp:930-940 | the last item goes, an empty array stays empty |
| AmfArrays.AMFArray.Clear | brpc/brpc/amf.cpp:907-914 | no items are left and all inline slots are cleared |
| AmfArrays.AMFArray.At | brpc/brpc/amf.h:263-266 | operator[] reads the item across both storages |
| AmfArrays.AMFArray.Set | brpc/brpc/amf.h:267-270 | assignment through operator[] changes that item only |
| Partitioning.PartitionServersIntoTemps | brpc/brpc/partition_channel.cpp:122-147 | tmp i gets the servers tagged with partition i of this kind, in order, and no others |
| Partitioning.AddServersInBatch | brpc/brpc/partition_channel.cpp:149-161 | every balancer gains the servers of its partition; the result counts what changed |
| Partitioning.RemoveServersInBatch | brpc/brpc/partition_channel.cpp:163-175 | every balancer loses the servers of its partition; the result counts what changed |
| Partitioning.HoldsAfter | brpc/brpc/partition_channel.cpp:149-175 | balancers that held exactly the live servers of their partitions do so after a batch |
| DynamicPartitioner.Partitioner.PartitionServersIntoTemps | brpc/brpc/partition_channel.cpp:289-343 | each kind in the batch has a sub channel and its tmp holds the batch's servers of that kind |
| DynamicPartitioner.Partitioner.OnAddedServers | brpc/brpc/partition_channel.cpp:345-356 | the invariant is kept for the live servers plus the batch |
| DynamicPartitioner.Partitioner.OnRemovedServers | brpc/brpc/partition_channel.cpp:358-382 | the invariant is kept for the live servers minus the batch; counters never go below zero and every erased kind was in the map |
| DynamicPartitioner.Partitioner.Watch | brpc/brpc/partition_channel.cpp:289-382 | after any events partition (kinds, index) holds exactly the live servers so tagged, num_servers is their number, and a kind has a channel iff it has a live server |
| DynamicPartitioner.CountedServers | brpc/brpc/partition_channel.cpp:370-378 | a sub channel counts servers iff a live server is of its kind |
| DynamicPartitioner.Remaining | brpc/brpc/partition_channel.cpp:358-382 | erasing the sub channels that count nothing leaves exactly the kinds with live servers |
| InputMessenger.Socket.TryPreferred | brpc/brpc/input_messenger.cpp:78-142 | when the preferred protocol decides, and when others are tried; a client never tries others and its answer is determined, with streaming_rpc tried behind baidu_std |
| InputMessenger.Socket.TryEach | brpc/brpc/input_messenger.cpp:143-167 | the first other handler that does not pass decides and becomes preferred |
| InputMessenger.Socket.CutInputMessage | brpc/brpc/input_messenger.cpp:76-168 | a server's answer is that of the first handler, preferred one first, that does not pass, and the preferred index follows it; a client's answer and index come from its own protocol, or streaming_rpc behind baidu_std, or fail the connection |
| InputMessenger.FirstMeaning | brpc/brpc/input_messenger.cpp:143-167 | the chosen handler does not pass and all before it do; none means all pass |
| InputMessenger.Messenger.ProcessNewMessage | brpc/brpc/input_messenger.cpp:218-328 | for any parse results, accepted messages are handed over exactly once and in parse order, at most the latest one held; rejected and unprocessable ones are destroyed; when the socket fails |
| InputMessenger.Messenger.OnNewMessages | brpc/brpc/input_messenger.cpp:330-395 | over any reads, whichever way it returns, every accepted message was handed over once and in order and none is held |
| Acceptor.StoppedClosesAll | brpc/brpc/acceptor.cpp:122-161 | in every interleaving, once StopAccept is through, every connection in the map lost its reference or its inserting thread is about to fail it |
| Acceptor.StoppedMakesProgress | brpc/brpc/acceptor.cpp:122-161 | a stopped acceptor is never stuck: until all is gone something can be recycled |
| Acceptor.InsertAnswersExactly | brpc/brpc/acceptor.cpp:252-345 | in every run an inserted connection is failed by its thread iff stopping has begun, or on descriptor 0 Join already returned |
| Acceptor.RunningClosesNothing | brpc/brpc/acceptor.cpp:252-345 | until it is stopped, the acceptor itself closes no connection, and all it accepted are in the map |
| Acceptor.JoinWaits | brpc/brpc/acceptor.cpp:173-197 | with a descriptor above 0 Join returns only when map, listener and every socket ever accepted are gone |
| Acceptor.DrainedIsGone | brpc/brpc/acceptor.cpp:179-181 | where the invariant holds and the descriptor is above 0, Join's condition means that all is gone |
| Acceptor.GoneForGood | brpc/brpc/acceptor.cpp:252-363 | after that nothing can be accepted or inserted any more |
| Acceptor.JoinSafeExactly | brpc/brpc/acceptor.cpp:179-181 | Join is safe in all runs iff the descriptor is not 0 |
| Acceptor.JoinTooEarly | brpc/brpc/acceptor.cpp:179-181 | a run on descriptor 0 with a connection inserted after Join returned |
| Acceptor.RunInv | brpc/brpc/acceptor.cpp:122-363 | every step of all parties keeps the invariant |
| Acceptor.AcceptorObject.StartAccept | brpc/brpc/acceptor.cpp:51-103 | accepted iff the descriptor is not negative, SSL is not forced without a context, the acceptor is unused and thread and socket could be created; then the stopping protocol starts in its initial state, otherwise nothing changes |
| Acceptor.AcceptorObject.InsertConnection | brpc/brpc/acceptor.cpp:311-322 | keeps the invariant of the stopping protocol; the answer is false iff stopping has begun, or on descriptor 0 Join already returned, and then its thread is the one that fails the connection |
| Acceptor.AcceptorObject.BeginStop | brpc/brpc/acceptor.cpp:127-133 | keeps the invariant; the acceptor never runs afterwards and only the call that found it running goes on |
| Acceptor.AcceptorObject.BeforeRecycle | brpc/brpc/acceptor.cpp:347-363 | keeps the invariant; a recycled connection is out of the map for good, a recycled listener leaves no accepting thread |
| Acceptor.AcceptorObject.MayReturn | brpc/brpc/acceptor.cpp:179-181 | on a descriptor above 0 Join may return iff everything ever accepted is gone, on descriptor 0 iff the map is empty |
| CircuitBreaker.RecorderForgets | brpc/brpc/circuit_breaker.cpp:65-73 | any window_size consecutive successes leave at most epsilon of the error cost |
| CircuitBreaker.RecorderClears | brpc/brpc/circuit_breaker.cpp:145-163 | a long enough run of successes leaves exactly zero |
| CircuitBreaker.WindowForgets | brpc/brpc/circuit_breaker.cpp:145-163 | the same for any interleaved updates of the cost that only decay it |
| CircuitBreaker.AverageInRange | brpc/brpc/circuit_breaker.cpp:114-127 | the average stays between the smallest and the largest sampled latency |
| CircuitBreaker.LatencyIsAverage | brpc/brpc/circuit_breaker.cpp:76-112 | over any calls and resets, the latency is the average of the successful calls since the last reset within a first window |
| CircuitBreaker.LatencyInRange | brpc/brpc/circuit_breaker.cpp:76-112 | over any calls and resets: the latency is 0 if nothing was sampled since the last clearing reset, otherwise within the sampled latencies |
| CircuitBreaker.FirstWindow | brpc/brpc/circuit_breaker.cpp:88-100 | in its first window a recorder trips iff the errors exceed the tolerated share |
| CircuitBreakerLaws.VerdictPastFirstWindow | brpc/brpc/circuit_breaker.cpp:76-164 | past its first window a recorder accepts every success, and an error iff it costs nothing or a hundred times the new error cost is at most average latency times window size times tolerated percentage times 1 + epsilon; an error costs its latency, up to the configured multiple of the average |
| CircuitBreakerLaws.ErrorsInARow | brpc/brpc/circuit_breaker.cpp:129-164 | from a cost of zero, n errors in a row as slow as the average are all accepted iff n is at most the tolerated share of the window times 1 + epsilon |
| CircuitBreakerLaws.CallIsKept | brpc/brpc/circuit_breaker.cpp:76-164 | what a call leaves in the recorder: counters, the average of successes, the cost that grew or decayed |
| CircuitBreakerLaws.AverageIsExponential | brpc/brpc/circuit_breaker.cpp:114-127 | over any samples the average is the exponential average of all of them, up to the rounding |
| CircuitBreakerLaws.PositiveAverage | brpc/brpc/circuit_breaker.cpp:114-127 | positive samples have a positive average |
| CircuitBreakerLaws.CostIsScaled | brpc/brpc/circuit_breaker.cpp:145-163 | a success scales the cost by the smoothing factor and rounds it down; below the minimum nothing is kept |
| CircuitBreakerLaws.BothWindows | brpc/brpc/circuit_breaker.cpp:177-197 | a closed breaker accepts calls for as long as both windows do |
| CircuitBreakerLaws.BreakerFirstWindows | brpc/brpc/circuit_breaker.cpp:177-197 | in its first windows a breaker accepts calls iff the errors stay within both tolerated shares |
| CircuitBreakerLaws.ResetReopens | brpc/brpc/circuit_breaker.cpp:199-204 | a reset closes the breaker and clears the error costs, and the samples of a first window; the next success is accepted |
| CircuitBreakerLaws.IsolationDoubles | brpc/brpc/circuit_breaker.cpp:213-228 | broken n times again soon after each reset, the breaker stays isolated twice as long each time, up to the limit |
| CircuitBreakerLaws.LateBreakIsShort | brpc/brpc/circuit_breaker.cpp:213-228 | broken long after its reset, it is isolated for the minimal duration again |
| CircuitBreaker.BrokenIsFrozen | brpc/brpc/circuit_breaker.cpp:177-197 | nothing but a reset changes a broken breaker |
| CircuitBreaker.NoRecovery | brpc/brpc/circuit_breaker.cpp:177-197 | after a false answer a later call before the reset answers true iff it ended with ELIMIT, for calls one after the other |
| CircuitBreakerRaces.FirstWindowRaces | brpc/brpc/circuit_breaker.cpp:88-100 | under any interleaving of the loads and additions, until a window is cleared: exactly the first window_size additions are judged by count, the k-th error among them is accepted iff k is below the tolerated share, and whoever was refused answers false |
| CircuitBreakerRaces.NoLateRecovery | brpc/brpc/circuit_breaker.cpp:177-197 | under any interleaving, from a moment the breaker is broken until it is reopened: calls that had not passed the test of _broken, and all later ones, answer true iff they ended with ELIMIT |
| CircuitBreakerRaces.PassedMayAnswerTrue | brpc/brpc/circuit_breaker.cpp:177-197 | a call past the test may still answer true after another was answered false |
| CircuitBreakerRaces.EpisodesCounted | brpc/brpc/circuit_breaker.cpp:206-211 | under any interleaving of calls and resets each episode is counted once, by the call whose exchange began it |
| CircuitBreaker.IsolatedOncePerEpisode | brpc/brpc/circuit_breaker.cpp:206-211 | isolated_times counts the episodes of being broken, at most one more than resets |
| CircuitBreaker.DurationInLimits | brpc/brpc/circuit_breaker.cpp:213-228 | the isolation duration stays within its limits after any events |
| CircuitBreaker.EmaErrorRecorder.UpdateLatency | brpc/brpc/circuit_breaker.cpp:114-127 | the new average lies between the old one and the sample, and starts with the first sample |
| CircuitBreaker.EmaErrorRecorder.UpdateErrorCost | brpc/brpc/circuit_breaker.cpp:129-164 | an error raises the cost by at most a multiple of the average latency; a success is healthy and lowers the cost or leaves zero; VerdictPastFirstWindow and CostIsScaled say exactly when it is unhealthy and what is left |
| CircuitBreaker.EmaErrorRecorder.OnCallEnd | brpc/brpc/circuit_breaker.cpp:76-103 | the object does what the recorder's specification says, of which FirstWindow, VerdictPastFirstWindow and CallIsKept state when it trips and what it keeps |
| CircuitBreaker.CircuitBreakerObject.OnCallEnd | brpc/brpc/circuit_breaker.cpp:177-197 | the object does what the breaker's specification says; the short window is not asked when the long one trips |
| CircuitBreaker.CircuitBreakerObject.MarkAsBroken | brpc/brpc/circuit_breaker.cpp:206-211 | isolated_times grows by one iff the breaker was closed, and the duration stays within its limits |
| CircuitBreaker.CircuitBreakerObject.UpdateIsolationDuration | brpc/brpc/circuit_breaker.cpp:213-228 | the duration stays within its limits and does not shrink soon after a reset |
| Memcache.EveryHistoryWalks | brpc/brpc/memcache.cpp:89-109 | after any history of builders, merges and parses the frame walk succeeds, ends at the end of the buffer and counts exactly the pipelined requests |
| Memcache.OneFrame | brpc/brpc/memcache.cpp:345-365 | a built request is one frame iff its body is below 2^32 bytes |
| Memcache.FrameDecodesExactly | brpc/brpc/memcache.cpp:345-416 | whatever follows, a built frame is read back iff its key length, body length and numbers fit their fields |
| Memcache.FramesDecode | brpc/brpc/memcache.cpp:345-416 | any built requests are read back from the buffer, the same, in order and with nothing left over, iff all their lengths fit their fields |
| MemcacheCommands.CallsAreRead | brpc/brpc/memcache.cpp:345-846 | any calls whose lengths fit are read from the buffer, by the numbers of the binary protocol, as those calls with their arguments, in order, and counted |
| MemcacheCommands.RequestMeans | brpc/brpc/policy/memcache_binary_header.h:44-71 | the request each call builds asks, by its literal command number and extras, for that call |
| MemcacheCommands.HeaderBytes | brpc/brpc/policy/memcache_binary_header.h:100-128 | the bytes of a request header, one by one |
| MemcacheCommands.Issue | brpc/brpc/memcache.cpp:345-846 | each call appends one frame of its request and counts it; appending or prepending an empty value is refused and changes nothing |
| Memcache.WalkConcat | brpc/brpc/memcache.cpp:146-150 | whole frames followed by others count both |
| Memcache.CountFrames | brpc/brpc/memcache.cpp:90-107 | the loop accepts exactly sequences of whole frames and counts them |
| Memcache.MemcacheRequest.GetOrDelete | brpc/brpc/memcache.cpp:345-365 | one frame with the key is appended |
| Memcache.MemcacheRequest.Flush | brpc/brpc/memcache.cpp:392-416 | one frame, with extras iff a timeout is given |
| Memcache.MemcacheRequest.Store | brpc/brpc/memcache.cpp:536-561 | one frame with flags, expiration, key, value and cas |
| Memcache.MemcacheRequest.Counter | brpc/brpc/memcache.cpp:686-707 | one frame with delta, initial value, expiration and key |
| Memcache.MemcacheRequest.Touch | brpc/brpc/memcache.cpp:805-824 | one frame with expiration and key |
| Memcache.MemcacheRequest.Version | brpc/brpc/memcache.cpp:829-846 | one frame without body |
| Memcache.MemcacheRequest.MergeFrom | brpc/brpc/memcache.cpp:146-150 | buffers and counts are joined, and the walk still counts all |
| Memcache.MemcacheRequest.MergePartialFromCodedStream | brpc/brpc/memcache.cpp:77-110 | the bytes are taken iff they are whole frames, otherwise nothing changes |
| WorkStealing.TakenExactlyOnce | brpc/bthread/work_stealing_queue.h:68-134 | one owner and any number of thieves, any interleaving of loads, stores and compare-exchanges: no item is taken more often than it was pushed, and when the queue is empty with the owner outside, every pushed item was taken |
| WorkStealing.EveryStepIsAtomic | brpc/bthread/work_stealing_queue.h:68-134 | in every run each step is one operation of a double-ended queue or none: a push appends, a pop removes the last item, a steal the first |
| WorkStealing.PopFailsOnEmpty | brpc/bthread/work_stealing_queue.h:87-113 | in every run pop answers false only if the queue is empty at the step that decides it |
| WorkStealing.PushRefusedExactly | brpc/bthread/work_stealing_queue.h:68-82 | in every run a push is refused when the queue is full; one that saw the current _top, only then |
| WorkStealing.ThiefLeavesExactly | brpc/bthread/work_stealing_queue.h:115-134 | in every run a thief that looks at the current _bottom leaves only an empty queue, or one whose last item a pop in progress competes for |
| WorkStealing.ExchangeTakesOrRetries | brpc/bthread/work_stealing_queue.h:121-134 | in every run a compare-exchange takes the first item or, if somebody took one since, tries again: a thief never leaves there empty-handed |
| WorkStealing.QueueIsADeque | brpc/bthread/work_stealing_queue.h:68-134 | called one after the other, push, pop and steal are those of a double-ended queue bounded by the capacity, refusals included |
| WorkStealing.RunInv | brpc/bthread/work_stealing_queue.h:68-134 | every step of all parties keeps the invariant |
| WorkStealing.OwnerRefines | brpc/bthread/work_stealing_queue.h:72-113 | the owner's steps as operations of a double-ended queue |
| WorkStealing.WinRefines | brpc/bthread/work_stealing_queue.h:118-134 | a thief whose compare-exchange succeeds holds the first item |
| SocketWrite.OneWriter | brpc/brpc/socket.cpp:1651-1748 | any number of threads push requests by exchanging _write_head: in every run at most one thread has the right to write, and then _write_head is set |
| SocketWrite.WireInOrder | brpc/brpc/socket.cpp:1651-1855 | in every run the wire is, in the order of the exchanges, the beginning of each request's data, once each; a request not written completely before a later one was given up as failed |
| SocketWrite.ReturnedOnce | brpc/brpc/socket.cpp:479-527 | in every run a request is returned at most once, as successful only if all of it is on the wire; as failed only after something failed, by SocketProgress.WithoutFailureAllWritten |
| SocketWrite.QuiescentMeansReturned | brpc/brpc/socket.cpp:1651-1855 | when no step is left, _write_head is NULL, every request was returned exactly once, and if none failed the wire is all data in the order of the exchanges; SocketProgress.EveryRunCanFinish leads there |
| SocketProgress.WithoutFailureAllWritten | brpc/brpc/socket.cpp:1651-1855 | in every run without a failure of connecting, writing or waiting no request is returned as failed; once no step is left, each was returned as written exactly once and the wire is the data of all exchanges in order |
| SocketProgress.EveryRunCanFinish | brpc/brpc/socket.cpp:1651-1855 | from every reachable state the threads can finish all that was pushed, without a new request and without a failure |
| SocketProgress.PlanCloser | brpc/brpc/socket.cpp:1170-1226 | whoever has the right to write can take a step, or the thread it awaits can, that brings all requests closer to being written |
| SocketProgress.UnfailedRun | brpc/brpc/socket.cpp:479-527 | without a failure no thread ever returns a request as failed |
| SocketWrite.NeverStuck | brpc/brpc/socket.cpp:1199-1203 | while a thread has the right to write it can take a step, or the thread whose link it awaits can |
| SocketWrite.NoUseAfterReturn | brpc/brpc/socket.cpp:479-527 | no step reads or writes a request that was returned, in any reachable state |
| SocketWrite.ChecksHold | brpc/brpc/socket.cpp:1170-1211 | the CHECKs of IsWriteComplete never fire: the tail has no successor and the reversal meets the old tail before NULL |
| SocketWrite.StepInv | brpc/brpc/socket.cpp:1170-1855 | every step of all threads keeps the shape of the list, the books of returned requests and the order of the data |

## Left out

- Sockets, event dispatch, TLS, RDMA, timers and bthread scheduling appear only as nondeterministic steps.
- Protobuf reflection in the AMF reader and writer, and the metrics, spans and logging of Controller and Channel.
- SelectiveChannel's sender, stream creators and progressive readers.
- Memory failure of buffer appends, and of creating the sub channels of a partitioner.
- AMFField's in-place storage (short strings, heap objects): fields are values; what a failed read leaves in an object is not described.
- AMF values with strings of 2^31 bytes or more, whose length does not fit the writer's int.
- AMFInputStream.CutUint: one method stands for the four widths of the code.
- EveryRunSettlesOnce: a corollary for at most one backup request and a policy that declines what arrives on the base id; EveryRunAccounts, ChecksExplained and SettlesExactly cover all events.
- EndedBodyDecodes: assumes every write has 1 to 2^32 - 1 bytes; ChunkReadsBack shows that larger chunks are not read back.
- ProcessNewMessage: message statistics (average sizes, input bytes) are not modelled.
- StartAccept: initializing an acceptor for the first time, and restarting after Join, are not modelled.
- PlanCall: a call id that cannot be locked is not modelled.
- OnCallEnd: the objects run one call at a time; CircuitBreakerRaces interleaves the counters, _broken and _isolated_times, with the averages' verdicts arbitrary.
- FirstWindowRaces: calls that race with the clearing of their window by a reset are not covered.
- WireInOrder: memory of requests is not reused in the model, which NoUseAfterReturn justifies; Setup of requests, authentication, RDMA and TLS are left out.
- UpdateIsolationDuration: int overflow of the doubled duration is not modelled.
- Memcache and Redis responses.
- Load balancers, naming services, HTTP parsing and the other protocols of the framework.
- TakenExactlyOnce: indices do not wrap around at 2^64, and memory orders are interleavings in which only the loads in front of a fence may be stale.
