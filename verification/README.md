# A verified model of the slsfs trigger server

The repository is a small message broker and function dispatcher. Clients speak a framed binary protocol over
TCP. `put` and `get` go through a broker with one bucket per topic; `trigger` submits a job to a launcher,
which pushes it to one of the workers that registered over the same protocol, and the worker's answer is
written back to the client that triggered it.

The model has five cooperating parts. Sockets, strands, the TBB containers and signals are replaced by
queues, maps, listener sets and FIFO sequences.

| Part | Modules |
|---|---|
| packet codec, key hash and key equality (`serializer.hpp`) | `Wire`, `KeyHash` |
| the two packet readers (`main.cpp`, `worker.hpp`) | `Framing` |
| topic broker (`main.cpp`) | `Topics` (objects), `BucketThreads`, `BucketInvariants`, `BucketRuns` (interleavings) |
| job launcher (`launcher.hpp`) | `Launcher` (objects), `LauncherThreads`, `LauncherInvariants`, `LauncherTalk` (interleavings), `LauncherRefines` (the two agree) |
| HTTP invoker and its shared retry counter (`trigger.hpp`) | `Invoker` |
| connections, launcher and workers together | `Server`, `ServerLaws`, `ServerLaunching`, `ServerWorkers`, `ServerTokens`, `ServerBytes`, `EndToEnd`, `ServerScenarios` |

## Granularity

- *Handler-atomic*: one posted handler, completion handler or call is one step. `Framing`, `Topics`, `Launcher`,
  `Invoker` and all `Server*` modules and `EndToEnd` are handler-atomic.
- *Fine-grained*: any number of io threads have program counters; one operation on a queue, map, signal, validity
  flag or socket is one step. The `Bucket*` modules, `LauncherThreads`, `LauncherInvariants` and `LauncherTalk` are
  fine-grained. `LauncherRefines` proves that a thread that runs `start_jobs` without interruption always comes home,
  and always in the state that the handler-atomic call ends in: every run of that thread alone is the beginning of
  one and the same run. The number of a worker is its place in the iteration order of the worker set, which it keeps.

A theorem about runs holds in every state reachable by any finite interleaving of the steps. In both granularities
one `start_write` is one atomic append of a frame, because only the completions of writes are on a strand.

`Framing`'s third reader, `Peer`, is the other end of either connection: like `slsfs-client.cpp` it reads a body after
every header.

## Assumptions that theorems name

They are fields of an `Assumptions` value, so that each theorem says which of them it uses. The lemmas named beside
them exhibit runs that break a theorem without them.

- `freshSalts` / `freshKeys`: `gen` never draws the salt of an earlier job. Without it the map keeps the first job
  under a salt and a reply goes to the wrong client (`SaltCollisionMisroutes`); `RoutedRightIff` says exactly when.
- `answersOnce`: a worker answers each push at most once. Without it a connection reads twice at the same time
  (`DoubleAnswerDoublesReads`).
- `honestWorkers`: the bytes that arrive behind a registration are the front of what the worker serialized: answers
  and acks that echo headers pushed to it, and other packets without body. Without it a forged response crashes the
  server (`ForgedResponseCrashes`).
- `noTimerErrors`: `async_wait` fails with `operation_aborted` at most. Otherwise the timer pushes the job again,
  without a `start_jobs`; `JobConservation` and `StrandedIff` also cover that case.
- `noAckAfterReply`: a worker sends no ack after its response for the same header (`LateAckTurnsBack`).
- `warnings`: the log core opens records of severity `warning`; the increment of the retry counter is an operand of
  such a log statement (`SilentLogRetriesForever`, `WritesBoundedIff`).

## Promises that the code does not keep

- A job can wait beside a valid worker with nobody going to look at the queue (`JobStrandedBesideWorker`): a thread
  that found no worker pushes the job back after the worker has registered and both its calls of `start_jobs` have
  found the queue empty. `StrandingStep` says exactly which steps strand a job and which end that; `StrandedIff` says
  the same of whole runs.
- A `get` that connects after the last pop of a drain and before the slots are cleared is dropped without a message
  (`SomeGetIsLost`); `WaiterFate` says exactly which waiters are.
- On a trigger topic the body posted is that of the packet that ran the drain, not that of the popped message
  (`SomeBodyIsNeverPosted`, `GetPostsNothing`); `PostsRightIff` says for which stored bodies all posts are right.
- A worker may be sent a job before the job is in the map, and its quick response then makes the handler dereference
  a null pointer (`EarlyResponseCrashes`); `LookupFindsTheJob` says exactly when the lookup succeeds. Handler-atomic
  and with honest workers it always does (`LookupFindsFirst`).
- `hton`/`ntoh` at a width other than 1, 2 or 4 answer -1 (`HtonUndoneIff`).
- `serialize` overruns its buffer for bodies above 2^32 - 46 bytes (`ExactFitIff`, `Serialize`).
- A worker whose reader stopped on an unknown type or a failed body read stays valid (`WorkerReaderHandles`).

## Model

| member | source | states |
|---|---|---|
| Wire.MemoryOfHton | serializer.hpp:59-73 | copying `hton(x)` out of memory gives network byte order, on hosts of either byte order |
| Wire.NtohOfLoad | serializer.hpp:75-89 | `ntoh` of copied network-order bytes is their value, on either host |
| Wire.HtonUndoneIff | serializer.hpp:59-89 | `ntoh` undoes `hton` if and only if the width is 1, 2 or 4, except for the value -1 itself |
| Wire.ParseOfEncode | serializer.hpp:133-178 | parsing a dumped header gives the header back, whatever its type byte |
| Wire.EncodeOfParse | serializer.hpp:133-178 | dumping what was parsed from any 45 bytes gives those bytes back |
| Wire.HeaderBijection | serializer.hpp:92-178 | every 45-byte array is the image of exactly one header |
| Wire.HeaderLayout | serializer.hpp:156-178 | byte 0 is the type, 1..32 the key, 33..36 the sequence, 37..40 the salt, and 41..44 the datasize, most significant byte first |
| Wire.MutablePacket.Dump | serializer.hpp:156-178 | writes exactly the 45-byte image at the given position, leaves all other bytes alone, returns the position after it |
| Wire.MutablePacket.Parse | serializer.hpp:133-154 | sets the header to the one the 45 bytes encode, on a host of either byte order |
| Wire.MutablePacket.Serialize | serializer.hpp:241-250 | stamps the body length modulo 2^32 and changes nothing else; fills a fresh buffer with exactly the header image and the body, or, exactly for bodies above the bound, allocates one that is too small |
| Wire.ExactFitIff | serializer.hpp:100-104 | the 32-bit size computed by `serialize` holds the packet if and only if the body is at most 2^32 - 46 bytes; otherwise it is too small |
| KeyHash.HashRange | serializer.hpp:31-36 | the loop computes the left fold of `hash_combine` |
| KeyHash.FoldAppend | serializer.hpp:25-36 | hashing one range after another is hashing their concatenation |
| KeyHash.CombineBits | serializer.hpp:25-29 | each bit of one step is that of the seed against that of the 64-bit sum of the byte, 0x9e3779b9, the seed shifted left by 6 and right by 2 |
| KeyHash.HashSteps | serializer.hpp:31-36 | the fold goes from the first byte of the key to the last of the salt, from the seed 0x1b873593 |
| KeyHash.HashIsOneFold | serializer.hpp:183-201 | hash is one fold over key and salt, and agrees with key equality, whatever type, sequence and datasize are |
| KeyHash.CombineInjective | serializer.hpp:25-29 | modulo 2^64, one `hash_combine` step separates any two bytes |
| KeyHash.LastSaltByteNeverCollides | serializer.hpp:183-201 | headers that differ at most in the last salt byte hash equally if and only if that byte is equal |
| Framing.DecodeFlat | main.cpp:143-255 | readable packets in front of any bytes are decoded first, and the rest is then read in the mode they leave |
| Framing.StreamRoundTrip | worker.hpp:33-105 | for both readers, decoding the concatenated serializations gives the packets back, and decoding any cut of them gives a prefix |
| Framing.DecodePrefix | main.cpp:143-255 | of any byte stream at all, a prefix never decodes to anything but a prefix of the packets |
| Framing.DecodeIsFaithful | main.cpp:143-255 | the wire image of what was decoded is the front of the stream: nothing lost, nothing invented |
| Framing.RoundTripIff | main.cpp:156-204 | the round trip holds for exactly the lists whose packets carry the body that their type calls for |
| Framing.ClientSwitch | main.cpp:156-204 | by raw byte: a client's 1 and 16 read a body, 8 hands over, 0, 2, 4, 9, 10 and 11 read on, any other byte stops |
| Framing.WorkerSwitch | worker.hpp:46-76 | by raw byte: a worker's 11 reads a body, 9 clears validity and reads on, 0, 1, 2, 4, 8, 10 and 16 read on, any other byte stops |
| Framing.BodySwitch | main.cpp:214-255 | behind any body the next header is read, but behind that of a client's trigger (16), whose job is to be answered first |
| Framing.ReaderReplyTable | main.cpp:169-203 | by raw byte: an ack is answered by an ack, 0, 9, 10 and 11 by an err, with the header otherwise unchanged and no body; nothing else is answered |
| Framing.CompleteKeepsMeaning | main.cpp:150-211 | one completed read moves packets from the unread bytes to the handled ones and changes nothing in their sum |
| Framing.PumpDecodes | main.cpp:143-255 | the reading machine run on buffered bytes handles exactly what they mean |
| Framing.PumpSplit | main.cpp:143-255 | reading two chunks one after the other is reading their concatenation |
| Framing.ReaderHandlesDecode | worker.hpp:33-105 | however the network cuts the stream into chunks, the reader handles exactly what the stream means |
| Framing.StreamReader.OnHeader | main.cpp:150-211 | steps the reader as the header says and writes back the ack or err it calls for; unless it stops, the bytes consumed grow by exactly this header |
| Framing.StreamReader.OnBody | main.cpp:245-254 | handles the packet with its body, then reads on, or waits for the job after a trigger |
| Framing.StreamReader.OnError | worker.hpp:78-103 | a failed header read clears the worker's validity, a failed body read leaves it |
| Framing.StreamReader.Resume | main.cpp:226-229 | the completion callback of a trigger writes the response, then starts the next header read, and consumes nothing |
| Invoker.SharedRetryBudget | trigger.hpp:156-179 | over any interleaving: retries are three per give-up plus `retried_`, which stays in 0..3; at most 4 writes and 18 events per request |
| Invoker.WritesBoundedIff | trigger.hpp:168-172 | four writes per request is a bound if and only if warning records are enabled |
| Invoker.SilentLogRetriesForever | basic.hpp:84-90 | with the warning record filtered out one request retries any number of times |
| Invoker.BoundAttained | trigger.hpp:156-179 | for every n, some run of n requests writes exactly 4n times |
| Invoker.PhasesEntered | trigger.hpp:88-196 | each phase of a request is entered at exactly the stated events: written behind the handshake on TLS, behind the connect on plain TCP, at once on an open socket; read behind a write; answered behind a read; otherwise dropped |
| Invoker.EventsTouchTheirOwn | trigger.hpp:88-196 | no event touches another request; the shared counter moves at failed writes alone, and how |
| Invoker.PlainNeverShakes | trigger.hpp:132-153 | in every run on a plain stream no request is ever in a handshake |
| Invoker.WrittenBehindHandshake | trigger.hpp:132-153 | in every run a TLS request being written has shaken hands or was posted on an open socket |
| Invoker.AnsweredBehindRead | trigger.hpp:165-195 | in every run an answered request was written and then read, both successfully |
| Invoker.StepKeepsInv | trigger.hpp:88-179 | every completion keeps the budget invariant and lowers a measure; a new post raises it by at most 17 |
| Invoker.InvokerObject.StartPost | trigger.hpp:88-123 | writes at once on an open socket, resolves otherwise, fails silently when the TLS host name cannot be set |
| Invoker.InvokerObject.OnWritten | trigger.hpp:165-178 | reads on success, otherwise spends or resets the shared counter, and keeps the invariant |
| Invoker.InvokerObject.OnConnected | trigger.hpp:132-153 | handshakes on a TLS stream and writes on a plain one |
| BucketInvariants.BrokerOrder | main.cpp:82-104 | fine-grained: stored messages are always those delivered, then the one in hand, then the queue; every delivery reached somebody |
| BucketInvariants.NoStuckDelivery | main.cpp:66-106 | fine-grained: with messages and listeners present, a drain is posted, running, or about to be posted by a thread |
| BucketInvariants.DrainDeliversAll | main.cpp:99-103 | fine-grained, every reachable state: when the slots are about to be cleared, every message queued when the drain began was delivered by it, in order, to everybody who waited then |
| BucketInvariants.DrainSteps | main.cpp:82-103 | fine-grained, every step: slots are cleared only behind a pop that saw the queue empty; a delivery reaches everybody connected and is followed by another pop; a trigger post carries the drain's own body |
| BucketInvariants.NothingStuck | main.cpp:66-106 | fine-grained: every handler begun and every drain posted can always go on |
| BucketInvariants.TriggerTopicCounts | main.cpp:79-91 | fine-grained: posts, message in hand and queue together count what was stored, in order; the kind of topic never changes |
| BucketInvariants.WaiterFate | main.cpp:92-104 | fine-grained: a waiter present when a drain began is served; the ones dropped unserved are exactly those that connected after the last delivery |
| BucketRuns.SomeGetIsLost | main.cpp:99-103 | a run in which a `get` is dropped without a message |
| BucketRuns.SomeBodyIsNeverPosted | main.cpp:82-90 | a run in which one of two different bodies stored is never posted and the other is posted twice |
| BucketRuns.GetPostsNothing | main.cpp:273-289 | a run in which the drain of a get pops a stored message and posts an empty body |
| BucketInvariants.OneBodyPostsRight | main.cpp:79-91 | fine-grained, every reachable state: if all stores carry one body, empty if there are gets, every post carries the message popped for it |
| BucketRuns.PostsRightIff | main.cpp:79-91 | fine-grained: all runs that store only the given bodies post right if and only if the bodies are all the same, and empty if gets come too |
| Topics.BatchAt | main.cpp:99-103 | one firing gives every waiter all pending messages in order, as acks with the drain's header |
| Topics.WaiterHearsBatch | main.cpp:99-103 | a connection hears exactly the pending messages in order, each as often as it waits |
| Topics.GetWaitsForPut | main.cpp:257-289 | a get of an empty topic waits through its own drain for the next put, whose drain gives it exactly that message and leaves the topic empty |
| Topics.DrainedIsDrain | main.cpp:79-104 | the reference drain: waiters are given away if and only if there are waiters and messages, and then all of both; otherwise nothing changes; a trigger topic keeps its waiters and posts the drain's own body once a message |
| Topics.OwnBodiesPostedIff | main.cpp:82-90 | of one drain: popped messages are posted as their own bodies if and only if all equal the drain's body |
| Topics.Bucket.HandleEvents | main.cpp:73-105 | the drain loops, in plain terms: both lists emptied and every waiter given every message in order, or nothing changed; on a trigger topic one post of the drain's body a message |
| Topics.Broker.GetBucket | main.cpp:136-141 | headers with equal key and salt reach one bucket; an existing bucket is never replaced; no other topic changes |
| Topics.Broker.Store | main.cpp:257-271 | the store handler refines `Put` on the plain map of topics, and acknowledges with type 4, the put's own header otherwise, and no body |
| Topics.Broker.Load | main.cpp:273-289 | the load handler refines `Get` on the plain map; its two lookups find one bucket |
| Topics.Broker.Drain | main.cpp:66-106 | the drain refines the plain map and does to its topic what `HandleEvents` states; all other topics untouched |
| Launcher.FailedCallsTurn | launcher.hpp:104-115 | n calls that find no worker turn the queue by n, so as many as there are jobs restore its order |
| Launcher.DrainConserves | launcher.hpp:101-133 | a call loses and duplicates no job; all go, in order, if a worker is valid, otherwise they are turned by one, with one wakeup, if there are any |
| Launcher.LauncherObject.GetAvailableWorker | launcher.hpp:67-73 | finds the first valid worker in iteration order, if there is one |
| Launcher.LauncherObject.StartJobs | launcher.hpp:101-133 | terminates; the whole queue goes in order to one valid worker, or is turned by one with exactly one wakeup |
| Launcher.LauncherObject.SubmitJob | launcher.hpp:150-163 | the new job is sent at once if some worker is valid, and waits otherwise; an entry already in the map stays; no work stranded |
| Launcher.LauncherObject.AddWorker | launcher.hpp:60-65 | everything that waited goes to the new worker, in order; no work stranded |
| Launcher.LauncherObject.Invalidate | worker.hpp:48-52 | losing a worker strands no work |
| Launcher.LauncherObject.RunAck | launcher.hpp:88-99 | the job found under the echoed key becomes started, whatever it was; a key not in the map crashes |
| Launcher.LauncherObject.RunResponse | launcher.hpp:75-86 | the callback of the job found fires once with the packet and the job becomes finished; a key not in the map crashes first |
| LauncherInvariants.JobConservation | launcher.hpp:101-133 | fine-grained, timer errors included: queue, hands and dispatches hold each job once for its push and once for each re-push |
| LauncherInvariants.SentAtMostOnce | launcher.hpp:101-133 | fine-grained: without timer errors a job is sent at most once, and is then neither queued nor in hand |
| LauncherInvariants.QueueIsFifo | launcher.hpp:101-163 | fine-grained, every run: what was queued and then entered the queue is what left it, in the same order, and then what is queued still |
| LauncherInvariants.MapKeepsFirst | launcher.hpp:160-163 | fine-grained, every step, with or without fresh salts: an entry of the map is made by the emplace of a job with that key and never changes |
| LauncherInvariants.TimersOncePerSend | launcher.hpp:119-131 | fine-grained, every run: the timer errors of a job, past and still possible, are as many as its sends |
| LauncherInvariants.NoThreadStuck | launcher.hpp:101-163 | fine-grained: in every reachable state every thread inside a handler has a step |
| LauncherInvariants.MappedBeforeUse | launcher.hpp:160-163 | fine-grained: a job queued, in hand or sent is in the map under its own key, unless its thread stands between push and emplace |
| LauncherInvariants.NoStrandedWork | launcher.hpp:101-133 | fine-grained: while a job is queued, a thread is inside the push/drain window or a wakeup was issued since the queue was last seen empty |
| LauncherInvariants.StrandingStep | launcher.hpp:101-133 | fine-grained, every step: exactly which steps leave a job beside a valid worker with nobody draining (the last draining thread pushes it back, or a timer error), and exactly which steps end that |
| LauncherInvariants.StrandedIff | launcher.hpp:101-133 | fine-grained, every run, timer errors included: a job is stranded if and only if some step stranded it and no later step rescued it |
| LauncherInvariants.JobStrandedBesideWorker | main.cpp:180-184 | a run that leaves a job stranded beside a valid worker, every thread gone home, both calls of the registering handler made |
| LauncherInvariants.SentBeforeMapped | launcher.hpp:160-163 | a run in which a worker has been sent a job that is not in the map |
| LauncherRefines.UninterruptedCallIsAtomic | launcher.hpp:67-133 | from any state, every run of one thread alone from its `start_jobs` on comes home exactly in the state of the handler-atomic call, the whole queue sent to the first valid worker |
| LauncherRefines.CallsMade | main.cpp:180-184 | the handler of a registration makes two calls of `start_jobs`, a submission makes one |
| LauncherTalk.JobStateOnlyForward | launcher.hpp:75-99 | fine-grained: through wires, sequential readers and the FIFO strand no step takes a job to an earlier state |
| LauncherTalk.LookupFindsTheJob | launcher.hpp:75-99 | fine-grained: the handler finds the job that was sent to that worker and makes it started for an ack, finished for a response, and no other; it crashes if and only if the submitter is still before its emplace |
| LauncherTalk.NoNoteLost | worker.hpp:54-101 | fine-grained, every run, each worker: what it said is what was handled of it, in the same order, and then what is still on the strand and the wire |
| LauncherTalk.EarlyResponseCrashes | launcher.hpp:160-163 | a run in which a response is handled before its job is mapped |
| LauncherTalk.LateAckTurnsBack | launcher.hpp:94-95 | a run in which a late ack turns a finished job back to started |
| ServerLaunching.StepKeepsInv | launcher.hpp:60-163 | every handler keeps: no stranded work, a wakeup since the queue was last empty, conservation, and the job map, whatever bytes anyone sends |
| ServerLaunching.NoStrandedWork | launcher.hpp:60-133 | in every run, a job waits only while no worker is valid, and only with a worker woken since the queue was last empty; every job waits or was pushed exactly once in all |
| ServerLaws.LaunchLaw | launcher.hpp:101-148 | every step: the body of a trigger or a registration sends all waiting jobs in order to one valid worker, or, if none is valid, turns them by one; a wakeup is issued exactly when that leaves jobs waiting; no other step touches queue, pushes or wakeups |
| ServerLaws.WaitingJobsWoke | launcher.hpp:107-115 | over any run: jobs waiting at its end have had a worker woken since any moment at which none waited |
| ServerLaws.ClientHeaderTable | main.cpp:143-212 | every header step by its raw first byte: which read follows, what is written back, hand-over with the very next byte, or the end |
| ServerLaws.ClientBodyTable | main.cpp:214-255 | behind a put's body the next header is read; a trigger's body becomes the body of a job for this connection, under the numbers drawn, and nothing is read |
| ServerLaws.WorkerNotes | worker.hpp:46-101 | of a worker's bytes, a header of type 4 and a whole packet of type 11 post a note of just that packet, and nothing else does |
| ServerLaws.NoteTable | launcher.hpp:75-99 | a note is taken off the strand; a response is written as it is to the connection of the job found, which reads on; an ack writes nothing |
| ServerLaws.WorkerSays | serializer.hpp:92-104 | what an answer and an ack are: types 11 and 4, with the key, sequence and salt pushed |
| ServerLaws.StreamsAppend | main.cpp:291-304 | every step: bytes and frames of a connection are only appended, those of the broker as they are |
| ServerLaws.ReadsComplete | main.cpp:143-255 | whenever the bytes that a read asks for have arrived, the read can complete |
| ServerWorkers.WorkerReaderHandles | worker.hpp:33-105 | in every run, whatever a worker sends: its reader handled the front of what its bytes mean, and it is valid exactly until it deregisters or a header read fails |
| ServerWorkers.ServerHearsWhatWasSaid | worker.hpp:33-105 | what the server handled of an honest worker is the front of what its bytes mean, which is the front of what it said |
| ServerWorkers.StepKeepsInv | worker.hpp:33-130 | every handler keeps: sound readers, true sayings, genuine replies, and no crash |
| ServerWorkers.LookupFindsFirst | launcher.hpp:75-99 | in every run with honest workers, the handler of an ack or response finds a job, the earliest one with the salt of the job it was meant for |
| ServerWorkers.RoutedRightIff | launcher.hpp:75-86 | in every run with honest workers, a reply reaches the connection that asked if and only if the earliest job with that salt came from there too |
| ServerTokens.StepKeepsInv | main.cpp:143-255 | every handler keeps the balance of reads, open jobs and ends on every connection |
| ServerTokens.OneTokenEach | main.cpp:214-255 | each connection has exactly one of: an outstanding read, an unanswered trigger, its end; replies answer its triggers in order |
| ServerBytes.StepKeepsFit | main.cpp:143-255 | every handler keeps each reader at a packet boundary, or between a header and its body, and each job's body equal to its trigger's |
| EndToEnd.ServerReadsWhatWasSent | main.cpp:143-255 | the packets handled are always a prefix of what the bytes mean, so of what the client serialized |
| EndToEnd.WaitingReaderHandledAll | main.cpp:143-255 | a reader that waits for bytes has handled everything its bytes mean |
| EndToEnd.EndToEnd | main.cpp:214-236 | over four byte streams: the n-th response a client decodes is the packet the server decoded from a worker's bytes, the worker's one answer to a push of that client's n-th trigger, whose body the worker decoded exactly |
| EndToEnd.NothingWrittenAfterHandOver | main.cpp:180-184 | once a connection registered as a worker, only jobs pushed to it are written there |
| ServerScenarios.TriggerIsServed | main.cpp:214-236 | for any body and any data, a run that meets every assumption in which the trigger gets that reply and its connection reads on |
| ServerScenarios.SaltCollisionMisroutes | launcher.hpp:155-162 | a run with one salt drawn twice in which a reply is written to the wrong client |
| ServerScenarios.DoubleAnswerDoublesReads | main.cpp:226-229 | a run with one push answered twice in which a connection has two reads outstanding |
| ServerScenarios.ForgedResponseCrashes | launcher.hpp:80-82 | a run in which a forged response to no job crashes the server |

## Left out

- EndToEnd.EndToEnd: asks for bodies that `serialize` fits in its buffers; `Wire.ExactFitIff` gives that bound.
- Launcher.LauncherObject.RunResponse: one firing of `on_completion_` is modelled as one completion record, because a job has exactly one slot.
- LauncherRefines.UninterruptedCallIsAtomic: is about one thread alone; under interference the launcher keeps what `LauncherInvariants` states.
- Wire.MutablePacket.Serialize: does not model which memory the overrun damages.
- Two reads outstanding on one socket, which happens only without `answersOnce`, each take the next bytes in the order in which they complete.
- The broker inside the server run: it appears there only as acks that may be written at any time; its own behaviour is in `Topics` and `BucketInvariants`.
- Job states inside the server run: the handler of an ack only looks the job up there; `LauncherTalk` has the states.
- Timer durations, the timer re-push inside the server run, and liveness: an ordinary expiry carries no error, so nothing is ever retried by time.
- Sockets, TLS, DNS, HTTP formatting, logging, signals and program options: a handler sees only success or failure.
- Interleaving of the bytes of concurrent `async_write` calls, and races on plain memory such as the lazy start of `itrigger_` and `binding_`.
- Random generation: the salt and the sequence of a job are arbitrary values; that `gen` draws from 1..255 is used only by the example runs, which stay inside that range.
- Drains posted to one strand may start in any order.
- `json-replacement.hpp`: its 8-byte sizes go through the unsupported width of `hton`.
- `client.cpp`, `slsfs-client.cpp`, the trace emulators, `trace_reader.hpp`, `scope_exit.hpp`, and host parsing in `basic.hpp`: benchmarks and small helpers.
