# Delivery client models

A Dafny model of the client-side code that the repository ships around its messaging library, with
proofs of what that code is meant to keep. The sorted storage of the store sync is modelled with it:
six parts in all.

* **The JSON event path** (`JsonTree`, `CStrings`, `JsonScan`, `JsonLookup`, `Braces`, `JsonUtils`,
  `JsonExtract`, `DeliveryEvents`, `JsonReader`). An event is flattened into one JSON object and
  printed; the C example finds its fields again by substring search. The model has JSON trees, their compact printer
  with its escapes (RFC 8259, sections 4 to 7), the C helpers over NUL-terminated arrays, and the
  callback that dispatches on the event's type. The main result is that on printed trees the
  substring searches are tree lookups: for all trees, all strings (escaped ones included) and all
  keys that fit the search buffer.
* **The Swift actor** (`ActorLifecycle`, `ActorSafety`, `ActorCalls`, `ActorMaintenance`, `WakuActor`,
  `ActorOverlap`, `LoopSleeps`, `MaintenanceLoop`, `MessageDedup`, `OneShotContinuation`). A transition
  system whose steps are the actor's segments between two awaits, run in any interleaving, with the
  classes whose methods perform those segments in place, one method for each segment, and a runtime
  (`Runtime.PerformAll`) through which whatever holds of runs holds of the objects; the
  laws of single requests, of a cancelled loop and of the UI; the maintenance loop; the bounded cache
  of seen hashes with the UI list; and the continuation that library callbacks and a timer race for.
* **The C callback handshake** (`CallbackHandshake`, `HandshakeThreads`). Mutex, condition variable
  and flag in steps that each touch one shared thing, with spurious wakeups; the same steps as methods
  over the shared globals, composed by `Process.PerformAll`.
* **The Base64 encoder** (`Base64`) against a strict reference decoder for RFC 4648, sections 3.5
  and 4, with the exact bound on 64-bit sizes.
* **The sorted storage of the store sync** (`SyncOrder`, `TopicTables`, `SeqStorage`). Insertion, batch insertion and
  pruning, the topic tables that elements refer to, and the reconciliation of an item set with a
  peer's.
* **The Sonda store monitor** (`Sonda`). Its counters, gauges and health as functions of the whole
  history of queries.

Assumptions about the surroundings, all stated in the model: each `await` may suspend, and the body
of a C call's continuation runs in the segment that makes the call; node creation returns a fresh
context; a call that returns 0 fires its callback exactly once, possibly before it returns; no
library callback arrives after the 15 s timer has released its context; the library runs one callback
of a node at a time.

Where the code departs from its documentation or from what one might expect, the model follows the
code; a theorem gives the exact condition, and an example shows it failing:

* an event takes the branch its own type names iff the first string under `eventType` names that
  branch (`OwnBranchIff`, `OverrideExample`, `NullOverrideExample`);
* a field search takes a member name that ends in a quote character followed by the key for the key
  itself; it is lookup by the exact name iff the first member it takes has that name or yields the
  same text (`ExactNameIff`, `QuotedNameExample`), and it returns a value unchanged iff that needs no
  escaping (`ExactIffPlain`, `EscapedValueExample`);
* deduplication is exact iff no event repeats a hash that is no longer among the last n mod 1001
  (`ExactIffRepeatsRecent`, `ForgottenSession`);
* while nobody stops the node or resubscribes, the UI agrees with the actor at a loop head iff no
  peer has left since the last filter status or the actor holds no subscription
  (`UiAgreesUnlessLeft`, `LeavingPeerDisagrees`, `LeavingPeerHidesFailures`);
* a start that connects leaves a maintenance loop running iff the actor holds none or one that still
  runs (`ConnectedStartLoopsIff`, `ConnectedWithoutLoop`);
* a batch insertion keeps the storage sorted iff all elements of the batch but the last are one and
  the same, which goes to the front (`BatchSortedIff`, `BatchOfThreeExample`);
* a reconciliation expects exactly what only the peer has iff the range is not beyond all own
  elements or the peer has nothing in it (`ReconciledIff`, `NothingExpectedExample`);
* a reconciliation for given topics brings exactly the elements with such topics iff none is asked for
  or the table knows one of them; if it knows none it brings all (`FilterExactIff`,
  `UnknownTopicExample`);
* elements keep the topics they were inserted with over a history iff every insertion brings a topic
  that the table has or finds no free index in use (`HistoryTruthfulIff`, `RecycledTopicExample`), and
  a free index comes into use exactly when a topic is found at one (`CleanKeptIff`).

An event callback that signalled would end a wait early (`SignallingEventBreaksWait`); the one in the
example does not.

## Model

| member | source | states |
|---|---|---|
| `JsonScan.FirstIsEarliest` | liblogosdelivery/examples/json_utils.c:9-12 | what a search is to find: the earliest member in document order with a matching name and a value of the wanted kind, and nothing iff no member qualifies |
| `JsonScan.MatchClosesToken` | liblogosdelivery/examples/json_utils.c:7-12 | a match of the search string that starts on or inside a printed string must end its key at that string's closing quote, so it never runs across tokens |
| `JsonScan.ScanName` | liblogosdelivery/examples/json_utils.c:7-12 | the text of a member's name holds a match iff the name matches and the value opens with the wanted character, at one known place |
| `JsonLookup.LookupIsFirst` | liblogosdelivery/examples/json_utils.c:9-12 | the recursive lookup that tracks text offsets finds the first qualifying member in document order |
| `JsonLookup.LookupAt` | liblogosdelivery/examples/json_utils.c:14-15 | at the offset the lookup gives, the printed tree holds the printed value |
| `JsonLookup.SearchPrinted` | liblogosdelivery/examples/json_utils.c:5-12 | strstr of `"key":X` over a whole printed tree succeeds iff the tree has a qualifying member, and then it points just before the first one's value |
| `JsonReader.ReadPrint` | liblogosdelivery/json_event.nim:21-22 | an independent reader for RFC 8259 gives every tree back from its printed text, escapes and literals included |
| `JsonReader.PrintInjective` | liblogosdelivery/json_event.nim:21-22 | so two different trees never print the same |
| `JsonReader.PrintedExample` | liblogosdelivery/json_event.nim:21-22 | how every kind of value prints, character for character |
| `JsonReader.EscapedExample` | liblogosdelivery/json_event.nim:21-22 | and how the named escapes do |
| `JsonUtils.ExtractJsonField` | liblogosdelivery/examples/json_utils.c:5-29 | the field extractor over arrays: when it succeeds, what it writes (cut to the buffer, terminated) and that nothing else in the buffer changes |
| `JsonUtils.ExtractJsonObject` | liblogosdelivery/examples/json_utils.c:31-61 | the object extractor yields the shortest non-empty brace-balanced text from the opening brace, and fails iff there is none |
| `JsonUtils.CloseBrace` | liblogosdelivery/examples/json_utils.c:46-60 | the depth-counting loop stops at the shortest balanced prefix, or at the NUL when none exists, without reading past it |
| `JsonUtils.ShortestUnique` | liblogosdelivery/examples/json_utils.c:46-60 | there is one shortest balanced prefix only |
| `JsonUtils.SkipFrom` | liblogosdelivery/examples/json_utils.c:83 | the separator loop stops at the first character that is none |
| `JsonUtils.ParseFrom` | liblogosdelivery/examples/json_utils.c:86-91 | the digit loop computes the base-ten value of the whole run in a 32-bit int, for runs that fit one |
| `JsonUtils.NextByte` | liblogosdelivery/examples/json_utils.c:81-93 | one pass of the outer loop produces the next byte of the scan or ends it at a bracket |
| `JsonUtils.DecodeFrom` | liblogosdelivery/examples/json_utils.c:79-95 | the outer loop ends even where the cursor stands still, writes the scanned bytes and a terminator, and leaves the rest of the buffer alone |
| `JsonUtils.DecodeJsonByteArray` | liblogosdelivery/examples/json_utils.c:63-96 | the byte-array decoder over arrays: -1 iff the search fails, otherwise the count and the bytes written, inside the buffer |
| `Braces.PrintLevel` | liblogosdelivery/examples/json_utils.c:46-60 | a printed tree without braces in its strings is balanced and no prefix of it dips below zero |
| `Braces.ObjectShortest` | liblogosdelivery/examples/json_utils.c:46-60 | a printed object is the shortest balanced prefix of itself followed by anything |
| `JsonExtract.FieldOfTree` | liblogosdelivery/examples/json_utils.c:5-29 | on every printed tree and key of at most 251 characters the field extractor succeeds iff some member at any depth has a matching name and a string value, and yields the first such value's escaped text up to its first quote |
| `JsonExtract.FieldOfPlainTree` | liblogosdelivery/examples/json_utils.c:5-29 | when no name holds a quote, it succeeds iff a member is named by exactly the key and holds a string, and a first such value that needs no escaping comes back whole |
| `JsonExtract.ExactIffPlain` | liblogosdelivery/examples/json_utils.c:15-26 | the extracted text is the value itself iff the value needs no escaping |
| `JsonExtract.EscapedValueExample` | liblogosdelivery/examples/json_utils.c:15-26 | a concrete value with a quote, which comes back cut |
| `JsonExtract.ExactNameIff` | liblogosdelivery/examples/json_utils.c:5-29 | on every printed tree the field search is lookup by the exact name iff the first member it takes is so named, or yields the same text as the first that is |
| `JsonExtract.QuotedNameExample` | liblogosdelivery/examples/json_utils.c:7-12 | a concrete tree with no member named by the key, in which a value is found under it |
| `JsonExtract.ObjectOfTree` | liblogosdelivery/examples/json_utils.c:31-61 | on printed trees with brace-free strings the object extractor yields exactly the printed text of the first object so named, and NULL iff there is none |
| `JsonExtract.FieldOfNestedObject` | liblogosdelivery/examples/logosdelivery_example.c:72-83 | extracting a field from the extracted object is lookup inside that object |
| `JsonExtract.DecodeArrayText` | liblogosdelivery/examples/json_utils.c:63-96 | a JSON array of bytes with any whitespace decodes to its first bytes, as many as the buffer has room for |
| `JsonExtract.BytesOfTree` | liblogosdelivery/examples/json_utils.c:63-96 | on a printed tree the decoder returns the bytes of the first array under the key |
| `JsonExtract.NoArrayInTree` | liblogosdelivery/examples/json_utils.c:67-70 | on a printed tree the decoder returns -1 iff no array has a matching name |
| `JsonExtract.DecodeOfTree` | liblogosdelivery/examples/json_utils.c:63-96 | on every printed tree the decoder yields the bytes scanned from the first array under the key alone, whatever the array holds, and -1 iff there is none |
| `JsonExtract.ArrayBytesOfBytes` | liblogosdelivery/examples/json_utils.c:79-95 | those of an array of bytes are the bytes, as many as there is room for |
| `DeliveryEvents.ToFlatJson` | liblogosdelivery/json_event.nim:7-19 | the loop over the payload's pairs builds the flattened object |
| `DeliveryEvents.FlatKeepsOrder` | liblogosdelivery/json_event.nim:8-19 | with distinct payload names other than eventType, the object is eventType followed by the payload's members in their order |
| `DeliveryEvents.PutAllHead` | liblogosdelivery/json_event.nim:12-17 | whatever the payload, eventType stays the first member, with the payload's own value if it has one |
| `DeliveryEvents.BranchSurvives` | liblogosdelivery/examples/logosdelivery_example.c:30-104 | escaping, the search and the 64-byte buffer never change which branch a type string selects, whatever its length or characters |
| `DeliveryEvents.FieldOfPrinted` | liblogosdelivery/examples/logosdelivery_example.c:29-104 | a field read into a buffer from any printed tree is the first string so named, escaped, up to its first quote and cut to the buffer |
| `DeliveryEvents.BranchOfFirst` | liblogosdelivery/examples/logosdelivery_example.c:29-105 | on every printed tree the callback takes the branch named by the first string under eventType at any depth, and none when there is no such string |
| `DeliveryEvents.ReportedByName` | liblogosdelivery/examples/logosdelivery_example.c:36-105 | on every printed tree each of the five kinds of report comes iff the first string under eventType is the one literal name it stands for, and an unknown one iff that string is none of the five |
| `DeliveryEvents.OwnBranchIff` | liblogosdelivery/examples/logosdelivery_example.c:29-105 | every event, whatever its payload holds under eventType and of whatever kind, takes its own branch iff the first string under eventType names that branch |
| `DeliveryEvents.ReactionOfTree` | liblogosdelivery/examples/logosdelivery_example.c:36-105 | what each branch reports of any printed tree, field by field, as lookups in the tree; the nested part of a received message is the extractors' result |
| `DeliveryEvents.NestedOfPrinted` | liblogosdelivery/examples/logosdelivery_example.c:72-100 | on every printed tree without braces in its strings that nested part is lookup: topic and payload inside the first message object, and nothing iff there is no such object |
| `DeliveryEvents.ReceivedOfTree` | liblogosdelivery/examples/logosdelivery_example.c:68-101 | so a received message on such a tree is reported with hash, topic and payload as lookups |
| `DeliveryEvents.BranchOfTypeValue` | liblogosdelivery/examples/logosdelivery_example.c:29-105 | when the payload's last word on eventType is a string, the callback takes the branch it names, and that string, cut, is what it read |
| `DeliveryEvents.EventTakesItsBranch` | liblogosdelivery/examples/logosdelivery_example.c:29-105 | end to end: an event whose payload has no eventType member takes exactly the branch its type names |
| `DeliveryEvents.OverriddenType` | liblogosdelivery/json_event.nim:16-17 | with a string under eventType in the payload, the event's own branch is taken iff that string names it too |
| `DeliveryEvents.OverrideExample` | liblogosdelivery/json_event.nim:16-17 | a concrete message_sent event that is handled as message_error |
| `DeliveryEvents.NullOverrideExample` | liblogosdelivery/json_event.nim:16-17 | a null under eventType hides the event's type, and a member deeper in the payload decides |
| `DeliveryEvents.ReceivedMessage` | liblogosdelivery/examples/logosdelivery_example.c:68-101 | end to end for a received message: the event's first message hash and, of the first object under "message", the content topic and the payload bytes come back, cut to the callback's buffers |
| `DeliveryEvents.ExtractMessage` | liblogosdelivery/examples/logosdelivery_example.c:72-100 | the nested extraction over a NUL-terminated copy of the slice |
| `DeliveryEvents.EventFlags.EventCallback` | liblogosdelivery/examples/logosdelivery_example.c:16-108 | the callback over arrays: its guards, the fields each branch extracts, and each of the three flags raised iff the eventType it read is message_sent, message_error or message_received |
| `DeliveryEvents.PrintedEventCopied` | liblogosdelivery/examples/logosdelivery_example.c:22-27 | a printed event holds no NUL, so the callback's copy is the whole text |
| `Base64.EncodedSize` | examples/cbindings/base64.c:6-17 | the encoded size in wrapping 64-bit arithmetic is four times the number of quanta, modulo 2^64 |
| `Base64.RoundingFits` | examples/cbindings/base64.c:10-13 | rounding up to a multiple of three never wraps |
| `Base64.AllocationExact` | examples/cbindings/base64.c:32-33 | size plus terminator is 4 * ceil(n / 3) + 1 iff n is at most 3 * (2^62 - 1) |
| `Base64.DecodeEncode` | examples/cbindings/base64.c:21-56 | the strict reference decoder returns every encoded byte string; it accepts only zero pad bits |
| `Base64.KnownEncodings` | examples/cbindings/base64.c:19-56 | the test vectors of RFC 4648, section 10, for one to three bytes, and the two digits that are neither letters nor numerals |
| `Base64.EncodeDecode` | examples/cbindings/base64.c:21-56 | every text that decoder accepts is the encoding of what it decodes to |
| `Base64.EncodeLength` | examples/cbindings/base64.c:32-36 | an encoding has the length that the size function announces |
| `Base64.PaddingAtEnd` | examples/cbindings/base64.c:43-52 | the pad character stands in exactly the last (3 - n mod 3) mod 3 places |
| `Base64.EncodeAppend` | examples/cbindings/base64.c:36-53 | encoding distributes over concatenation at multiples of three bytes |
| `Base64.ShiftsAreGroups` | examples/cbindings/base64.c:37-49 | the masked shifts of the 64-bit accumulator are the four 6-bit groups, most significant first |
| `Base64.LoadGroup` | examples/cbindings/base64.c:37-39 | the conditional shifts gather the group's bytes, absent ones as zero |
| `Base64.EncodeGroup` | examples/cbindings/base64.c:37-52 | one pass of the loop yields the quantum of the one to three bytes at its index |
| `Base64.B64Encode` | examples/cbindings/base64.c:21-56 | NULL iff there is no input; otherwise the encoding and its terminator in a fresh array of exactly that size, whose contents are those of one write to every slot, and no index out of range |
| `CallbackHandshake.StepKeepsInv` | examples/cbindings/waku_example.c:22-43 | every step of either thread and of the environment keeps lock ownership, counting, wakeups and the topic consistent |
| `CallbackHandshake.FlagCountsSignals` | examples/cbindings/waku_example.c:22-31 | in every reachable state the flag is signals minus completed waits and is 0 or 1, and no wait completes before its call's callback has signalled |
| `CallbackHandshake.SleeperIsOwedASignal` | examples/cbindings/waku_example.c:25-28 | no wakeup is lost: a sleeping main thread's callback has not signalled yet, or is about to wake it |
| `CallbackHandshake.TopicIsTheAnswer` | examples/cbindings/waku_example.c:152-206 | back from a content-topic call the main thread reads that call's answer, and nobody is writing it |
| `CallbackHandshake.AnswersAreMessages` | examples/cbindings/waku_example.c:124-206 | in every run the k-th answered call, if it asks for a content topic, is answered with the message that the k-th callback was handed |
| `CallbackHandshake.TopicIsTheMessage` | examples/cbindings/waku_example.c:124-206 | so back from such a call the main thread reads the message of that very call's callback |
| `CallbackHandshake.ExitsIff` | examples/cbindings/waku_example.c:33-150 | a run ends the process iff in it a call does not return 0, an event reports an error, or the callback of a call other than content topic does |
| `CallbackHandshake.ReturnsWithinFiveSteps` | examples/cbindings/waku_example.c:22-43 | once the callback has signalled, the main thread is back within five steps of its own, despite spurious wakeups and any interleaving |
| `CallbackHandshake.SignalledMainProceeds` | examples/cbindings/waku_example.c:22-31 | in every reachable state with the flag set such a step is possible, at the latest after two steps of the library |
| `CallbackHandshake.SignallingEventBreaksWait` | examples/cbindings/waku_example.c:139-150 | a concrete run showing that the first wait would end before its callback fires if the event callback signalled |
| `HandshakeThreads.Process.PerformAll` | examples/cbindings/waku_example.c:22-150 | any schedule of the threads' statements over the shared globals is a run of the machine, so in those globals the flag is signals minus waits, a sleeper is owed its signal, and the topic read is the answer |
| `OneShotContinuation.CallbackContext.SetContinuation` | examples/ios/WakuExample/WakuNode.swift:58-69 | storing the continuation, before the call or at any time; a spent context stays spent |
| `OneShotContinuation.CallbackContext.ResumeOnce` | examples/ios/WakuExample/WakuNode.swift:71-86 | only the first call after the continuation is stored resumes it, with its own value; every other changes nothing |
| `OneShotContinuation.ResumedAtMostOnce` | examples/ios/WakuExample/WakuNode.swift:74-86 | in every interleaving of the single steps of any number of callbacks and the timer, at most one resume, with the value of whoever locked first |
| `OneShotContinuation.ResumedByTimerEnd` | examples/ios/WakuExample/WakuNode.swift:571-588 | when the timer block has ended, exactly one resume has happened and the context was retained and released once |
| `OneShotContinuation.TimeoutIffTimerFirst` | examples/ios/WakuExample/WakuNode.swift:580-585 | the timer reports a timeout iff it locked first, and then the timeout is what was delivered |
| `OneShotContinuation.DidIffFirst` | examples/ios/WakuExample/WakuNode.swift:72-86 | resumeOnce returns true to exactly the first locker |
| `ActorSafety.LifeIsProper` | examples/ios/WakuExample/WakuNode.swift:207-250 | the stages of a context's life are what its events say: creation, ordinary calls, then only the teardown |
| `ActorSafety.SegmentKeepsContexts` | examples/ios/WakuExample/WakuNode.swift:166-434 | every segment, with any outcome, keeps every context at the stage that the actor and the suspended coroutines expect |
| `ActorSafety.TeardownIsLast` | examples/ios/WakuExample/WakuNode.swift:207-250 | for every interleaving: once stop has taken a context, nothing but unsubscribe_all, stop, destroy is ever called on it, in that order, each at most once |
| `ActorSafety.DestroyedOnce` | examples/ios/WakuExample/WakuNode.swift:236-249 | a destroy is the last event of its context and comes three events after stop took it |
| `ActorSafety.TeardownCompletes` | examples/ios/WakuExample/WakuNode.swift:236-249 | from every reachable state in which stop has taken a context, at most three resumptions finish its teardown with all three calls |
| `ActorCalls.HasPeersIff` | examples/ios/WakuExample/WakuNode.swift:190-212 | in every run the actor knows of peers iff since it last gave a context up a connect succeeded or a peer joined |
| `ActorCalls.PublishLaw` | examples/ios/WakuExample/WakuNode.swift:252-288 | in every run a publish calls the held context iff one is held and peers are known, raises the error iff one is held and none are, does nothing without one, and after its call raises the error iff it failed |
| `ActorCalls.OneCallPerPublish` | examples/ios/WakuExample/WakuNode.swift:252-288 | over every run there is one publish call for every publish that found a context and known peers |
| `ActorCalls.StopLaw` | examples/ios/WakuExample/WakuNode.swift:207-250 | stop takes the held context, clears the flags, cancels the held loop and leaves the UI stopped and not connected; without a context it does nothing |
| `ActorCalls.SubscribeLaw` | examples/ios/WakuExample/WakuNode.swift:371-434 | a subscribe calls the held context iff one is held and no subscription is held or under way; its answer is the flag, and the UI is told of a success alone |
| `ActorCalls.ResubscribeLaw` | examples/ios/WakuExample/WakuNode.swift:290-296 | a resubscribe tells the UI that nothing is subscribed and asks at once on the held context, whatever the flags said |
| `ActorCalls.StartedAlready` | examples/ios/WakuExample/WakuNode.swift:166-170 | a start while a context is held does nothing |
| `ActorCalls.CreationFails` | examples/ios/WakuExample/WakuNode.swift:166-388 | a start whose node cannot be created: its updates, and nothing else changes |
| `ActorCalls.StartFails` | examples/ios/WakuExample/WakuNode.swift:166-388 | a start whose node cannot be started: its calls and updates, and the context is dropped |
| `ActorCalls.StartRuns` | examples/ios/WakuExample/WakuNode.swift:166-388 | a start whose node starts: its calls and updates, the context it holds, peers known iff it connects or they were, and a loop of its own iff it connects and none is held |
| `ActorCalls.CancelledLoopIsSilent` | examples/ios/WakuExample/WakuNode.swift:447-502 | a cancelled loop that is not awaiting its ping or its subscribe makes no call any more, whatever interleaves |
| `ActorMaintenance.OneMaintenanceTask` | examples/ios/WakuExample/WakuNode.swift:207-212 | in every interleaving an uncancelled maintenance loop is the one the actor holds, so there is at most one |
| `ActorMaintenance.LoopSegmentAgrees` | examples/ios/WakuExample/WakuNode.swift:389-508 | each segment of the loop keeps actor, loop variables and UI in the agreement due at its control point |
| `ActorMaintenance.BystanderSegment` | examples/ios/WakuExample/WakuNode.swift:166-288 | starting, connecting and publishing never touch the subscription flags and send no filter status |
| `ActorMaintenance.RunKnowsFirst` | examples/ios/WakuExample/WakuNode.swift:450-471 | in every such run the loop's first-ping flag is up before an iteration's decision iff the loop has completed none |
| `ActorMaintenance.UiAgreesUnlessLeft` | examples/ios/WakuExample/WakuNode.swift:447-535 | in every run without stop or resubscribe, at each loop head after an iteration the UI agrees with the actor's subscription iff not both a peer has left since the last filter status and the actor holds one, and with the failures modulo three iff not both a peer has left and there are some |
| `ActorMaintenance.UiAgreesAtLoopHead` | examples/ios/WakuExample/WakuNode.swift:447-508 | in runs without stop, resubscribe or a leaving peer, once the loop has completed an iteration the UI shows at each loop head the actor's subscription and the loop's failures modulo three, whatever it showed before |
| `ActorMaintenance.LeavingPeerDisagrees` | examples/ios/WakuExample/WakuNode.swift:532-534 | a concrete run from the start that ends at a loop head, one iteration completed, with the UI showing no subscription while the actor holds one |
| `ActorMaintenance.LeavingPeerHidesFailures` | examples/ios/WakuExample/WakuNode.swift:532-534 | a concrete run from the start that ends at a loop head with the UI showing no failed attempts while the loop counts one |
| `ActorMaintenance.OneRequestPerDecline` | examples/ios/WakuExample/WakuNode.swift:458-476 | over every run without stop or resubscribe the subscribe requests sent equal the iterations whose ping failed or that held no subscription, less the one under way and those that found the context gone |
| `LoopSleeps.LoopSleepsLongEnough` | examples/ios/WakuExample/WakuNode.swift:447-498 | every loop of every run, whatever interleaves: n completed iterations have slept at least 2n + 28 * (n / 3) seconds |
| `LoopSleeps.HeadCountsFailures` | examples/ios/WakuExample/WakuNode.swift:450-498 | every loop of every run counts at its head its subscribe failures since its last success, modulo three |
| `LoopSleeps.ErrorAtEveryThird` | examples/ios/WakuExample/WakuNode.swift:485-497 | and sends its error exactly when those failures come to a multiple of three |
| `ActorOverlap.ConnectedStartLoopsIff` | examples/ios/WakuExample/WakuNode.swift:195-200 | in every run a start that connects leaves an uncancelled loop running iff the actor holds no maintenance task or the held one still runs |
| `ActorOverlap.ConnectedWithoutLoop` | examples/ios/WakuExample/WakuNode.swift:360-365 | a concrete run of overlapping starts, without stop or cancellation, that ends connected and without a loop |
| `WakuActor.WakuActor.StartMaintenanceLoop` | examples/ios/WakuExample/WakuNode.swift:438-447 | a loop is started only when none is held |
| `WakuActor.WakuActor.HandleConnectionChange` | examples/ios/WakuExample/WakuNode.swift:526-535 | what each peer event does, and that any other is ignored |
| `WakuActor.Runtime.ResumeTask` | examples/ios/WakuExample/WakuNode.swift:166-503 | resuming one suspended coroutine of one actor is one step of the transition system |
| `WakuActor.Runtime.PerformAll` | examples/ios/WakuExample/WakuNode.swift:166-535 | any schedule of an actor object is a run of the transition system, so in its own history every taken context sees the teardown only, and an uncancelled loop is the one it holds |
| `WakuActor.WakuNode.ConsumeStatus` | examples/ios/WakuExample/WakuNode.swift:660-664 | the UI after a stream of updates |
| `ActorCalls.LastUpdateShows` | examples/ios/WakuExample/WakuNode.swift:712-737 | each property of the UI is what the last update of its kind said |
| `ActorCalls.NoUpdateKeeps` | examples/ios/WakuExample/WakuNode.swift:712-737 | and what it was when there is none |
| `ActorCalls.ErrorsAddUp` | examples/ios/WakuExample/WakuNode.swift:712-737 | every error update adds one error to the list |
| `MaintenanceLoop.Maintain` | examples/ios/WakuExample/WakuNode.swift:447-502 | the loop for every sequence of outcomes: each iteration's requests, updates and sleep, and at every head the failures since the last success modulo three |
| `MaintenanceLoop.MaintainOnce` | examples/ios/WakuExample/WakuNode.swift:458-497 | one iteration: its requests, updates and sleep, and the variables it leaves |
| `MaintenanceLoop.ErrorsAndRequests` | examples/ios/WakuExample/WakuNode.swift:461-497 | the error is sent exactly when a failure brings the count to a multiple of three, and a subscription is asked for exactly when the ping failed or none was held |
| `MaintenanceLoop.ShortSleepsAreBounded` | examples/ios/WakuExample/WakuNode.swift:489-497 | at most two short sleeps for each long one, beyond the current row of failures |
| `MaintenanceLoop.SleepsLongEnough` | examples/ios/WakuExample/WakuNode.swift:461-497 | n iterations request at least 2n + 28 * (n / 3) seconds of sleep, however the calls end |
| `MaintenanceLoop.FailingSleepsLeast` | examples/ios/WakuExample/WakuNode.swift:485-497 | that bound is reached when every subscribe fails |
| `MaintenanceLoop.IterationIsTheTask` | examples/ios/WakuExample/WakuNode.swift:453-498 | one iteration of this loop is, request for request, update for update and sleep for sleep, what the actor's own segments do when nothing interleaves |
| `MessageDedup.MessageHandler.HandleMessage` | examples/ios/WakuExample/WakuNode.swift:537-567 | one message event on the cache and the stream: ignored when malformed or seen, else delivered with its own hash, payload and content topic, even when the cache is cleared |
| `MessageDedup.MessageHandler.ProcessEvents` | examples/ios/WakuExample/WakuNode.swift:181-185 | a session of events is the fold of single ones |
| `MessageDedup.MessageHandler.ForgetOnStop` | examples/ios/WakuExample/WakuNode.swift:234 | stop empties the cache and delivers nothing |
| `MessageDedup.StopStartsAfresh` | examples/ios/WakuExample/WakuNode.swift:228-234 | what is handled after a stop is handled as a session of its own, so the statements about a session hold between stops |
| `MessageDedup.CacheIsRecent` | examples/ios/WakuExample/WakuNode.swift:547-557 | with n deliveries the cache is exactly the set of the last n mod 1001 hashes, and no hash repeats within a block of 1001 |
| `MessageDedup.NoHashLost` | examples/ios/WakuExample/WakuNode.swift:547-566 | every well-formed event's hash is delivered |
| `MessageDedup.DeliveriesCarryEvents` | examples/ios/WakuExample/WakuNode.swift:537-566 | every delivery has the hash, payload and content topic of a well-formed event of its own, and these events come in the order of the deliveries |
| `MessageDedup.DeliveredSeldom` | examples/ios/WakuExample/WakuNode.swift:547-566 | among n deliveries a hash appears at most ceil(n / 1001) times |
| `MessageDedup.FewHashesAreExact` | examples/ios/WakuExample/WakuNode.swift:547-566 | with at most 1000 different hashes the deliveries are the first message of each, as without a bound |
| `MessageDedup.DeliveredIffNotRecent` | examples/ios/WakuExample/WakuNode.swift:547-557 | a well-formed event is delivered iff its hash is not among those of the last n mod 1001 deliveries |
| `MessageDedup.ExactIffRepeatsRecent` | examples/ios/WakuExample/WakuNode.swift:547-566 | deduplication is exact iff every event that repeats a hash finds it among the recent ones; otherwise more is delivered |
| `MessageDedup.ForgottenSession` | examples/ios/WakuExample/WakuNode.swift:554-557 | a concrete session, 1001 different messages and the first again, that is not exact |
| `MessageDedup.ForgetsAfterABlock` | examples/ios/WakuExample/WakuNode.swift:554-557 | right after any multiple of 1001 deliveries every well-formed event is delivered, seen before or not |
| `MessageDedup.MessageList.Receive` | examples/ios/WakuExample/WakuNode.swift:652-655 | one message on the UI list |
| `MessageDedup.MessageList.ConsumeMessages` | examples/ios/WakuExample/WakuNode.swift:650-657 | the UI list after a stream of messages, whatever it held before |
| `MessageDedup.NewestFirst` | examples/ios/WakuExample/WakuNode.swift:650-657 | the list is the new messages, newest first, and then what it held, cut to 100 |
| `MessageDedup.ListCarriesEvents` | examples/ios/WakuExample/WakuNode.swift:559-657 | and so every entry of the UI list shows the fields of an event of its own, later events first |
| `MessageDedup.ListShowsAnIdTwiceAtMost` | examples/ios/WakuExample/WakuNode.swift:547-657 | over cache and list together, no id three times in the list |
| `Sonda.ClassifyIgnoresOrder` | apps/sonda/sonda.py:100-117 | the outcome of a query does not depend on the order of the returned messages |
| `Sonda.ClassifyMeaning` | apps/sonda/sonda.py:82-163 | a query is found iff HTTP and store status are 200 and an entry carries the round's timestamp, and failed iff it raises, a status is not 200 or the body is no JSON |
| `Sonda.Monitor.SendSondaMsg` | apps/sonda/sonda.py:45-77 | a publication counts as sent iff it returned 200, and one of the two counters goes up by one |
| `Sonda.Monitor.CheckStoreResponse` | apps/sonda/sonda.py:82-117 | with store status 200, a success and a higher gauge iff an entry carries the round's timestamp, else an empty response and gauge 0; with any other store status a failure and gauge 0 |
| `Sonda.Monitor.SendStoreQuery` | apps/sonda/sonda.py:120-163 | every way a query can end is counted once, under its outcome; a success and a higher gauge iff HTTP and store status are 200 and an entry carries the timestamp |
| `Sonda.Monitor.SendStoreQueries` | apps/sonda/sonda.py:166-172 | one query per listed node, in order |
| `Sonda.Monitor.UpdateNodeHealth` | apps/sonda/sonda.py:199-204 | the health gauges follow the consecutive count |
| `Sonda.Monitor.RunRounds` | apps/sonda/sonda.py:186-204 | the main loop over any number of rounds |
| `Sonda.MetricsAreTheHistory` | apps/sonda/sonda.py:82-163 | after any run a node's counters count its whole history and its gauge is the length of the longest found end, however often it is listed |
| `Sonda.HealthyIffLastFound` | apps/sonda/sonda.py:186-204 | after every round a node is healthy iff it received at least `threshold` queries and the last `threshold` all found the message, or the threshold is not positive |
| `Sonda.HealthyIffAnswered` | apps/sonda/sonda.py:186-204 | the same over raw responses: with a positive threshold a listed node is healthy after the last round iff each of the last `threshold` responses sent for it had HTTP status 200, store status 200 and an entry with that round's timestamp |
| `Sonda.FailedPublicationKeepsCounts` | apps/sonda/sonda.py:195-197 | a round whose publication failed changes no node's counters |
| `Sonda.CountersSumToQueries` | apps/sonda/sonda.py:82-163 | successes, empty responses and failures of a node sum to its queries |
| `SyncOrder.LowerBoundPartitions` | waku/waku_store_sync/storage/seq_storage.nim:104 | on a sorted storage the search for a place separates the smaller elements from the others |
| `SyncOrder.UpperBoundPartitions` | waku/waku_store_sync/storage/seq_storage.nim:206 | and the other search the larger ones |
| `TopicTables.TopicsKeptIff` | waku/waku_store_sync/storage/seq_storage.nim:49-77 | entering a topic is sure to keep the topics of all elements, whichever free index comes first, iff the table has the topic or no free index is in use |
| `TopicTables.CleanKeptIff` | waku/waku_store_sync/storage/seq_storage.nim:49-62 | while no free index is in use nothing is relabelled, and that stays so iff the topic was not found at a free index |
| `SeqStorage.RecycledTopicExample` | waku/waku_store_sync/storage/seq_storage.nim:98-166 | on a concrete storage, one insertion, a pruning and two insertions, after which an element reads another's topics in both tables |
| `TopicTables.FreedIsClean` | waku/waku_store_sync/storage/seq_storage.nim:150-164 | pruning makes free exactly the indexes not in use and moves no topic |
| `TopicTables.TruthKeptIff` | waku/waku_store_sync/storage/seq_storage.nim:79-166 | one insertion or pruning is sure to leave every element reading the topic it was inserted with iff it is guarded: the topic is in the table, or no free index is in use |
| `TopicTables.HistoryTruthfulIff` | waku/waku_store_sync/storage/seq_storage.nim:79-166 | over any history of insertions and prunings, whichever free indexes are chosen, every element always reads the topic it was inserted with iff every insertion is guarded when it comes |
| `SeqStorage.InsertKeepsSorted` | waku/waku_store_sync/storage/seq_storage.nim:98-107 | an insertion keeps a sorted storage sorted and adds exactly the element |
| `SeqStorage.BatchSortedIff` | waku/waku_store_sync/storage/seq_storage.nim:109-133 | a batch insertion keeps a sorted storage sorted iff all its elements but the last are one and the same that goes to the front |
| `SeqStorage.BatchElements` | waku/waku_store_sync/storage/seq_storage.nim:109-133 | in order or not, a batch insertion loses nothing and adds nothing else |
| `SeqStorage.BatchOfThreeExample` | waku/waku_store_sync/storage/seq_storage.nim:123-131 | three different messages inserted into an empty storage come out of order |
| `SeqStorage.PruneKeepsLater` | waku/waku_store_sync/storage/seq_storage.nim:135-148 | pruning a sorted storage keeps exactly the elements not before the given time |
| `SeqStorage.IdxBoundsAreRange` | waku/waku_store_sync/storage/seq_storage.nim:202-216 | the indices found for two bounds are those of the elements within them, and none is found only when there is none |
| `SeqStorage.MergedIsDifference` | waku/waku_store_sync/storage/seq_storage.nim:342-383 | on sorted elements the merge yields exactly what only we have and what only they have |
| `SeqStorage.OwnElementsAre` | waku/waku_store_sync/storage/seq_storage.nim:240-256 | what a sorted storage brings to a reconciliation: exactly the elements within bounds that pass the topic filters, sorted |
| `SeqStorage.FilterExactIff` | waku/waku_store_sync/storage/seq_storage.nim:240-256 | whatever element is filtered, asking for topics lets it pass exactly when its topic is asked for or none is, iff none is asked for or the table knows one that is |
| `SeqStorage.OwnByTopic` | waku/waku_store_sync/storage/seq_storage.nim:405-415 | what a sorted storage brings when topics are asked for by name: exactly the elements within bounds whose topics in both tables are among those asked for, a list of which the table knows none asking for all |
| `SeqStorage.FindIndexes` | waku/waku_store_sync/storage/seq_storage.nim:405-415 | the loop finds the indexes of the topics asked for that the table knows |
| `SeqStorage.UnknownTopicExample` | waku/waku_store_sync/storage/seq_storage.nim:405-415 | a concrete storage that knows one topic, is asked for another and offers its element all the same |
| `SeqStorage.ReconciledIff` | waku/waku_store_sync/storage/seq_storage.nim:316-391 | what is sent is always what only we have; what is expected is what only they have iff the range was found or they have nothing |
| `SeqStorage.NothingExpectedExample` | waku/waku_store_sync/storage/seq_storage.nim:330-338 | a concrete empty storage that is offered an element and expects nothing |
| `SeqStorage.ExchangeAgrees` | waku/waku_store_sync/storage/seq_storage.nim:272-391 | over a full exchange each side sends exactly what the other lacks and then both hold the same; each also expects exactly what the other sends iff a side that does not find the range has a peer with nothing in it |
| `SeqStorage.Exchange` | waku/waku_store_sync/storage/seq_storage.nim:316-391 | the same between two storages, through the reconciliation of each |
| `SeqStorage.Storage.GetTopicIndex` | waku/waku_store_sync/storage/seq_storage.nim:49-62 | a topic's index: the one it has, else a free one, else a new one |
| `SeqStorage.Storage.InsertAt` | waku/waku_store_sync/storage/seq_storage.nim:79-96 | insertion at an index, ignored for a duplicate, with both topics entered for the new element |
| `SeqStorage.Storage.Insert` | waku/waku_store_sync/storage/seq_storage.nim:98-107 | insertion at the lower bound, which keeps a sorted storage sorted, and what it enters in both topic tables |
| `SeqStorage.Storage.BatchInsert` | waku/waku_store_sync/storage/seq_storage.nim:109-133 | an error for a batch not in order; otherwise all is inserted, the storage stays sorted iff the batch is harmless, and what is entered in both topic tables |
| `SeqStorage.Storage.Prune` | waku/waku_store_sync/storage/seq_storage.nim:135-166 | the elements before the time go, with their topic indexes, and in both tables exactly the indexes not in use become free |
| `SeqStorage.Storage.PerformAll` | waku/waku_store_sync/storage/seq_storage.nim:98-166 | any requests to an empty storage take both tables through the histories they make, so every element reads the topics it was inserted with when those histories are guarded |
| `SeqStorage.Storage.GetFilteredElements` | waku/waku_store_sync/storage/seq_storage.nim:240-256 | the elements of an index range whose topics pass both filters |
| `SeqStorage.Storage.Merge` | waku/waku_store_sync/storage/seq_storage.nim:342-383 | the two loops compute the merge of the filtered range with the peer's elements |
| `SeqStorage.Storage.ProcessItemSetRange` | waku/waku_store_sync/storage/seq_storage.nim:316-391 | the lists to send and to receive and the reply; on sorted elements the two differences, under the exact condition |
| `SeqStorage.AnswerItemSet` | waku/waku_store_sync/storage/seq_storage.nim:393-441 | the same with the topics given by name: what is sent is what the peer lacks of what the names let pass |

## Left out

- Printing: Nim's `$` on a JSON node is library code and is not part of this model; it is taken to print compactly with the escapes of `JsonTree.EscapeChar`. A character stands for one byte of UTF-8.
- JsonUtils.ExtractJsonObject: `depth` is unbounded here, so nesting beyond 2^31 - 1 braces is not modelled; and braces inside strings are covered by the general contract, not by the tree lemmas.
- JsonUtils.DecodeJsonByteArray: digit runs that overflow an int are excluded, and `bufSize` is at least 1, since the C code is undefined or wraps there; the count is not narrowed to an int.
- JsonUtils.ExtractJsonField: `bufSize` is at least 1, for the same reason.
- DeliveryEvents.EventFlags.EventCallback: a failed malloc is not modelled, what is printed is returned as a value, and a received message whose payload numbers overflow an int is excluded.
- Base64.B64Encode: inputs beyond the exact bound of `AllocationExact` are excluded, as is a failed malloc.
- Keys longer than 251 characters, whose search string is cut: the extractors' contracts cover them, the tree lemmas do not.
- CallbackHandshake: the library's own threads are one thread that runs a callback at a time; the event callback is one step; `publishResponse` is not used by the handshake and is not modelled.
- OneShotContinuation: callbacks after the timer's release, and the 0.1 s window of node creation, are assumed away as the Swift code does; threads wait for a lock as a step that changes nothing.
- Actor: the stream continuations, the event-processing coroutine and logging; updates are a history, and the UI list of errors is its length, without the timed dismissal. Contexts dropped by a failed start or by overlapping starts are never destroyed, and the model keeps that.
- ActorMaintenance.UiAgreesUnlessLeft: for runs that stop or resubscribe nothing is claimed, since either can overlap an outstanding subscribe.
- MessageDedup: timestamps, and the parsing, Base64 and UTF-8 decoding of an event, which arrives as its decoded fields or their absence.
- MaintenanceLoop: sleeps are requested durations, not real time.
- Sonda: latency, the text of error labels (a label is a value here, so texts that coincide stay apart), JSON values that are not of the expected kind, which crash the program, and the endless loop, which is any finite number of rounds.
- SeqStorage: fingerprints, which are exclusive ors of hashes, the partitioning of ranges and the payloads that carry them; a hash is a number, ordered as its bytes are, first byte first. A batch shorter of topics than of elements, which the Nim code fails on, is excluded.
- SeqStorage.Storage.GetTopicIndex: which free index comes first is left open, so the statements about topics are for every choice.
- The C++ forms of the encoder and of the handshake, `lpt_supervisor.py` and the Kotlin map conversion would add easy members only.
- Networking, Prometheus export, HTTP, the foreign-function wrappers, the UI views and the build.
