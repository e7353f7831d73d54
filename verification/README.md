# ZeSense streaming: a verified model

ZeSense serves the sensors of an Android phone over CoAP. A *CoAP server* thread talks to the network and
a *Streaming Manager* thread talks to the sensors. The server puts START, STOP and ONESHOT requests into a
20-slot ring, the manager puts STREAM_UPDATE, ONESHOT and STREAM_STOPPED responses into another, and each
thread consumes what the other produces. The ticket in a request or response is the address of the observer's
registration, which the CoAP library destroys when its reference count reaches zero.

This project models that core and proves what it is for: no registration is used after its release, no
reference is leaked, no request is lost or reordered, the two threads do not block each other for ever in either
direction, the requests achieve what they ask for, every sample reaches its stream stamped and in order, and
every sender report is accurate. Where the code misses such a property, a reachable state shows it, and the exact
condition under which it holds is proved: the guard of a step of the thread that takes it. The one exception is the
restart of a carrier thread, whose condition is where that thread stands, which the manager cannot read.

## Layout

| file | content |
|---|---|
| `RingBuffers.dfy` | the rings: what they mean, and the array with its three indices |
| `RequestIntake.dfy` | the anti-deadlock wrappers: fetching a request, putting a response and deferring requests meanwhile |
| `SensorModel.dfy`, `SensorSlots.dfy` | start, stop and one-shots on one sensor: on values, and in place |
| `StreamModel.dfy`, `Streams.dfy` | timestamps, bundling and repetition: on values, and on a stream's buffers |
| `Ledger.dfy` | who holds references to which life of a ticket, without threads |
| `Protocol.dfy` | the two threads as a step machine, one step to a critical section |
| `ProtocolInvariants.dfy`, `ProtocolLogs.dfy` | what every step keeps |
| `ProtocolRuns.dfy` | the properties of all reachable states |
| `ProtocolConditions.dfy` | the exact conditions on a run: when requests are lost, references leak, frequencies and caches are right |
| `ProtocolHandlers.dfy` | what the handlers' calls put into the request ring |
| `ProtocolOutcomes.dfy` | what a run achieves: which streams run, who is answered in which order |
| `ProtocolStreams.dfy` | the streams and samples that the handlers' calls lead to |
| `ProtocolLives.dfy` | reference counts, and when an address stands for another registration |
| `ProtocolCaches.dfy` | when a sensor's cache is valid |
| `ProtocolRounds.dfy` | how the threads share their time |
| `ProtocolReleases.dfy` | what some continuation of a run can still release |
| `EndToEnd.dfy`, `Deliveries.dfy` | from a stream's buffer, and from its sensor's readings, to the observer's notifications |
| `ProtocolWitnesses.dfy` | runs into the states where the code misses a property |
| `Progress.dfy`, `ServerProgress.dfy` | either thread's put completes within a bounded number of steps |
| `Notifications.dfy` | observe numbers, sender-report pacing and accuracy |
| `Payload.dfy` | the bytes of data packets and sender reports, and a receiver for them |
| `CarriersQueue.dfy`, `CarrierThreads.dfy` | the carrier threads' queue, and their start and exit |

Specifications are functions on values; a class whose methods update fields in place is proved equal to them
step by step (`Abstract()` and the `ensures` of each method). The step machine uses the same functions, so a
change of `SensorModel.StopStream`, say, breaks both `SensorSlot.StopStream` and the invariants.

## The step machine

Each action of `Protocol.Action` is one section that runs under a mutex or touches no shared data:

- `ObserveGet`, `PlainGet`, `OnUnregister`: what the handlers decide on (`ze_coap_resources.c:441-588`), up to
  the lock of the request put. A plain GET and the STOP that may follow it are separate actions.
- `OtherMessage`: a message that leads to no request, such as a POST (`ze_coap_resources.c:557-566`).
- `Settled`: a confirmable message is acknowledged or given up, and its reference released.
- `ServerPut`: `put_request_buf_item` at its lock and again after its wait (`ze_sm_reqbuf.c:57-82`).
- `ConsumeResponse`: one turn of the response loop (`ze_coap_server_core.c:151-374`). Whether an update goes out
  confirmably, and so takes a reference, is free.
- `FetchRequest`: `get_request_helper` and the dispatch (`ze_streaming_manager.c:233-299`). Whether
  `sm_new_stream` gets memory is free.
- `RealReading`, `Reading`, `NoReading`, `NextPass`: one look at the sample or the carriers queue
  (`ze_streaming_manager.c:308-562`). Which sample is there is free.
- `StreamTurn`: the next stream of the list gets the sample (`ze_streaming_manager.c:433-531`). Which packet it has to
  send, or none because its buffer is not full, is free; `Deliveries.Encodes` says of a run that it is the one that
  `Streams.Stream.Deliver` returns.
- `ManagerPut`, `WaitExpires`, `DeferRequest`: `put_response_buf_item` at its lock and after its timed wait
  (`ze_sm_resbuf.c:78-113`), and the deferral loop around it (`ze_streaming_manager.c:756-793`).

Two designs of the deferral queue are modelled. The comments at `ze_streaming_manager.c:763-767` and `801-805`
describe one queue shared by both wrappers (`Shared`). The code passes the queue's head pointer by value, so the
caller's queue stays empty and a deferred request is never served (`ByValue`). All theorems are about both unless
they say which.

Assumptions, each of which the code needs:

- One producer and one consumer to each ring, and no spurious wakeup: both waits are guarded by `if`.
  `RingModel.BareInsertAppendsIffNotFull` says what happens otherwise.
- Sensor activation, rate change and turn-off succeed.
- A frequency in a START is positive. The handler always asks for 10; the model leaves the value open.
- A registration belongs to one resource, a resource to one sensor, and a registration at an address exists as
  long as something holds a reference to it.
- In one round the server finds a bounded amount of work on the network (`Config.work`), for the progress measure.
  The runs that show what the code misses need one request in a round, or the two of a plain GET.
- The counters of a new registration are zero, except for the observe number, which starts anywhere.
  `COAP_OBS_MAX_FAIL` and `COAP_OBS_MAX_NON` are parameters: the CoAP library that defines them is not part of
  this model.

The life numbers, `live` and the five logs of a state are bookkeeping; no step depends on them.

## Where the code and its comments disagree

The model follows the code.

- The deferral queue is not shared (above). A request is lost exactly when a timed-out put fetches one for it
  (`ProtocolConditions.OrderIffNeverLoses`), and a reference leaks exactly when that request is a START
  (`ProtocolConditions.NothingLeaksIff`): then for ever (`ProtocolWitnesses.LostStartLeaksItsReference`), while
  everything else can still be released (`ProtocolReleases.EverythingElseCanBeReleased`). A lost STOP leaves the
  stream running and its registration held (`ProtocolWitnesses.LostStopLeavesTheStream`).
- `sm_stop_stream` reads the first remaining stream without a test when one-shots are pending
  (`ze_streaming_manager.c:919-933`). The step leads to `Faulted`, after which nothing is claimed:
  `ProtocolRuns.FaultIff` gives the exact condition and `ProtocolWitnesses.PlainGetOfOnlyObserverFaults` reaches it
  with an ordinary plain GET of the only observer. The fault keeps that observer's reference for ever
  (`ProtocolWitnesses.FaultKeepsItsReference`).
- A sensor's frequency is the maximum of its streams' (`ze_streaming_manager.h:243-247`) throughout a run exactly
  if no START undercuts its sensor, leaving no stream at the sensor's frequency
  (`ProtocolConditions.AlwaysExactIff`). The manager's interface allows such a START
  (`ProtocolWitnesses.SlowerStartLeavesFrequency`), but no caller makes one: `generic_GET_handler` asks for 10
  always (`ze_coap_resources.c:457`), and with one frequency for all the promise is kept in every run
  (`ProtocolConditions.UniformRunsAreExact`).
- An inactive sensor can have a valid cache, against `ze_streaming_manager.h:225-226`: late samples set the flag
  (`ProtocolWitnesses.LateSampleFillsInactiveCache`). The promise is kept throughout a run exactly if no sample is
  cached for a sensor that is off (`ProtocolConditions.AlwaysCacheOkIff`).
- The comment at `ze_coap_resources.c:583-584` has an unknown STOP confirmed; the code does not confirm it, as the
  comment at `ze_streaming_manager.c:254-257` says.
- A carrier thread can be on its way out when its sensor is turned on again, which leaves the sensor active
  without a carrier: `CarrierThreads.ActivationCarriesOnIff`.
- A sender report's header declares length 15, although 39 bytes are sent (`ze_coap_server_core.c:495-508`):
  `PayloadModel.ReportLengthIsWrong`.
- `htonll` calls the little-endian host big-endian; its bytes are right.

## Model

| member | source | states |
|---|---|---|
| ProtocolRuns.NoUseAfterRelease | ze_coap_server_core.c:161-232 | in every reachable state, when the server takes a STREAM_UPDATE or STREAM_STOPPED, the manager's reference to that registration is unreleased and the registration is the one the response was made for, not a later one at the same address: `ProtocolLives` proves that a later one has another life |
| ProtocolRuns.UpdateIsCovered | ze_streaming_manager.c:237-252 | every STREAM_UPDATE in the ring or in the manager's hand has a running stream of its ticket, or a STREAM_STOPPED of it behind, although a replacement sends STREAM_STOPPED while updates go on |
| ProtocolRuns.ReferencesAreConserved | ze_coap_resources.c:483-484 | for each ticket, checkouts for the manager = releases + STARTs unserved + STARTs lost + its running stream + STREAM_STOPPEDs not consumed, over all runs: new, replaced, failed, stopped and not found |
| ProtocolRuns.StopNeverCrossesLives | ze_streaming_manager.c:888-913 | a STOP takes no reference, yet one issued in one life of an address never removes a stream started in a later life, which by `ProtocolLives` is another one |
| ProtocolLives.NewRegistrationIsLater | ze_coap_resources.c:473-484 | in every reachable state, a GET with observe that comes when nothing holds the address makes a registration on the handler's sensor with a number above every registration that a request, response or stream names there; one that comes while something does finds that registration |
| ProtocolLives.LivesAreOrdered | ze_coap_resources.c:483-484 | whatever names a registration at an address, in logs, rings, hands, losses or streams, names the one there or an earlier one, and two of the same number are the same |
| ProtocolLives.LifeLastsIff | ze_coap_server_core.c:161-173 | over every run an address stands for the same registration if and only if no GET came after every reference to it was given back |
| ProtocolLives.ReferencesAreCounted | ze_coap_server_core.c:161-258 | in every run a registration's count is its checkouts, one for each GET with observe and each confirmable notification, less its releases, one for each STREAM_STOPPED consumed and each settled message; it exists if and only if fewer were released than checked out |
| ProtocolRuns.QuietStateOwes | ze_coap_server_core.c:161-173 | with all served and consumed the manager holds, for each ticket, one reference for its running stream and one for each of its lost STARTs, and so none at all if and only if nothing runs and no START was lost |
| ProtocolConditions.OrderIffNeverLoses | ze_streaming_manager.c:768-788 | in every run, requests served plus requests queued are the requests put, in order, if and only if no timed-out put ever fetched a request for the by-value queue |
| ProtocolConditions.NothingLeaksIff | ze_streaming_manager.c:768-788 | in every run that ends with all served and consumed, the manager holds exactly one reference for each running stream if and only if no timed-out put fetched a START for the by-value queue |
| ProtocolReleases.EverythingElseCanBeReleased | ze_coap_server_core.c:161-173 | from every reachable state that has not faulted, and in which no STOP is pending for a sensor on which a one-shot waits, some continuation answers every one-shot, stops every stream and releases every reference except those of lost STARTs |
| ProtocolConditions.LostStartIsOwedForEver | ze_streaming_manager.c:788-816 | in every continuation of every reachable state the references of the STARTs lost so far stay unreleased |
| ProtocolConditions.AlwaysExactIff | ze_streaming_manager.c:843-880 | in every run, each sensor's frequency is the maximum of its streams in every state if and only if no served START is below its sensor's frequency with no other stream asking for that |
| ProtocolConditions.AlwaysCacheOkIff | ze_streaming_manager.h:221-228 | in every run, an inactive sensor has an invalid cache in every state if and only if no sample is cached for a sensor that is off |
| ProtocolCaches.CacheValidIff | ze_streaming_manager.c:390-393 | in every run, a sensor's cache is valid if and only if a sample of it was taken from the sample queue, real readings of event-based sensors included, and the sensor has not been turned off since |
| ProtocolConditions.UniformRunsAreExact | ze_coap_resources.c:452-484 | in every run in which all observers ask for the same frequency, as the handler makes them, each sensor's frequency is the maximum of its streams in every state |
| ProtocolOutcomes.StreamsAreWanted | ze_streaming_manager.c:237-258 | in every run without a fault, a ticket's stream runs if and only if the last word of the served requests on it is a START that found memory, and then for that START's registration, on its sensor |
| ProtocolOutcomes.RequestsAreCarriedOut | ze_streaming_manager.c:796-816 | once the manager has caught up without a fault, the requests served are those put, and those the handlers were called for, in order, if and only if none was lost by value, and the streams that run are those the served requests ask for |
| ProtocolHandlers.HandlersPut | ze_coap_resources.c:473-587 | in every run the requests put, and the one being put, are those that the handlers' calls alone determine, in order: START with the resource's sensor and the frequency, ONESHOT with the resource's sensor, STOP with the sensor of the resource that the registration was made for |
| ProtocolStreams.HandlersAreObeyed | ze_coap_resources.c:473-587 | once nothing is under way, if no request was lost, memory was there and the manager did not fault, a ticket streams on a sensor if and only if the handlers' last call for the two is a GET with observe, and then at the frequency asked for there |
| ProtocolStreams.GetsAreAnsweredOnce | ze_coap_resources.c:520-540 | once no request is under way, and if none was lost, the plain GETs on a ticket are the answers put, the one-shots waiting on sensors and the cached answer in hand |
| ProtocolStreams.SensorsServe | ze_streaming_manager.c:821-947 | in every run without a fault, a sensor lists a ticket at a frequency if and only if the last served word on the two is a START at it that found memory, and lists its streams in the order in which they were last started |
| ProtocolRounds.FiveLooksToARequest | ze_streaming_manager.c:308-562 | in every run, between two requests the manager looks at its queues exactly five times, at the sample queue first and then in turn, and takes readings of event-based sensors for the streams only from the carriers queue |
| ProtocolRounds.FiveGetsToARound | ze_coap_server_core.c:101-376 | in every run, a round of the server handles all that the network has for it, and then looks for a response exactly five times |
| ProtocolOutcomes.OneshotsKeepOrder | ze_streaming_manager.c:285-288 | in every run and for each sensor, the one-shots registered on it are, in order, those answered from samples followed by those still pending |
| EndToEnd.UpdatesArrive | ze_streaming_manager.c:466-520 | in every run and for each registration, the packets its streams sent are, in order, those the server consumed followed by those in the ring or in the manager's hand |
| EndToEnd.ObserverGetsTheSamples | ze_coap_server_core.c:212-277 | for a stream and a registration that has not failed too often, the i-th data notification carries the bytes of the encoded i-th slice of the stamped samples the stream was given, is sent confirmably, and as many are sent as updates were consumed |
| EndToEnd.ObserverReadsTheSamples | ze_coap_server_core.c:237-245 | an observer that follows the header reads timestamps and values of that slice out of that notification if and only if the packet has at most 32767 bytes |
| Deliveries.EveryReadingIsGiven | ze_streaming_manager.c:308-531 | in every run, while a ticket streams, its stream is given every reading of its sensor once and in order, but for the one the manager is still handling |
| Deliveries.ObserverGetsTheReadings | ze_streaming_manager.c:433-484 | in every run from a stream's start, the registration's i-th data notification carries the bytes of the i-th slice of the stamped readings of its sensor |
| ProtocolRuns.OneStreamToATicket | ze_streaming_manager.c:859-883 | a ticket has at most one stream, over all sensors |
| ProtocolRuns.RequestsKeepOrder | ze_streaming_manager.c:756-816 | whatever waits expire, the requests put are those served, queued and lost, none twice, and in order while none is lost; on the shared queue none is |
| ProtocolRuns.ResponsesKeepOrder | ze_sm_resbuf.c:18-113 | the server consumes the responses in the order of the manager's puts, timeouts and retries included |
| ProtocolRuns.OneshotsAreAnsweredOnce | ze_streaming_manager.c:259-296 | for each ticket, one-shots served = answers put + one-shots waiting on sensors + cached answer in hand |
| ProtocolRuns.OneshotsComeFirst | ze_streaming_manager.c:399-438 | in every reachable state, while a sensor whose sample is being handled has pending one-shots, the response in hand answers the oldest of them; streams get the sample only once none is left |
| ProtocolRuns.ActivationMatchesDemand | ze_streaming_manager.c:843-923 | in every reachable state a sensor is active exactly when it has a stream or a pending one-shot, its tickets are distinct, and its frequency is 0 without streams and never below a stream's |
| ProtocolRuns.FaultIff | ze_streaming_manager.c:919-933 | serving a request reads past the stream list exactly for a STOP of the only stream of a sensor with pending one-shots |
| ProtocolRuns.ReachableKeepsAll | ze_streaming_manager.c:229-592 | every reachable state satisfies the invariant, the logs and the balance of checkouts and releases |
| ProtocolRuns.StepKeepsReferenceLog | ze_coap_server_core.c:161-173 | every step keeps: checkouts = references owed + references released |
| Progress.PutCompletes | ze_streaming_manager.c:756-793 | from every reachable state with a response in hand, every fair run of window times measure steps completes that put |
| ServerProgress.ServerPutCompletes | ze_sm_reqbuf.c:57-82 | while the server waits on a full request ring, every fair run without a flood of event-based readings puts its request within a bound in streams, pending one-shots and deferred requests, unless the manager faults |
| ServerProgress.ManagerHelpsServer | ze_streaming_manager.c:229-592 | every step of the manager frees a slot, faults or comes nearer to its next get from the request ring, and caching one more event-based reading takes it no further away |
| ServerProgress.DispatchLoad | ze_streaming_manager.c:237-299 | serving a request adds at most one stream or pending one-shot |
| Progress.MeasureWhenBothWait | ze_sm_reqbuf.c:62-66 | when both threads wait on full rings the measure is 24 times the server's puts left in this round plus 29 |
| Progress.OnlyTheTimeoutIsLeft | ze_sm_resbuf.c:86-91 | when both threads wait, the expiry of the timed wait is the only step that either can take |
| Progress.ServerStepProgress | ze_coap_server_core.c:86-376 | a step of the server never raises the measure and lowers it when it is the server's turn to help |
| Progress.ManagerStepProgress | ze_streaming_manager.c:768-791 | a step of the manager in its put completes it, or does not raise the measure and lowers it when it is the manager's turn |
| ProtocolWitnesses.BothThreadsCanBlock | ze_streaming_manager.c:763-791 | the circular wait that the timed put is there to break is reachable |
| ProtocolWitnesses.ByValueLosesARequest | ze_streaming_manager.c:756-789 | with the by-value head pointer a run loses a request of the server |
| ProtocolWitnesses.LostStartLeaksItsReference | ze_streaming_manager.c:756-789 | with the by-value head pointer a run ends with nothing running and nothing under way, and a reference that no continuation releases |
| ProtocolWitnesses.LostStopLeavesTheStream | ze_streaming_manager.c:756-789 | and another with nothing under way, the STOP lost, and the stream running with its reference held |
| ProtocolWitnesses.FaultKeepsItsReference | ze_streaming_manager.c:919-933 | a state is reachable, with nothing lost and no fault yet, from which no continuation releases the only observer's reference |
| ProtocolWitnesses.SlowerStartLeavesFrequency | ze_streaming_manager.c:856-880 | STARTs of one ticket at 20 and then 10 leave a sensor above its only stream's frequency |
| ProtocolWitnesses.LateSampleFillsInactiveCache | ze_streaming_manager.c:390-393 | a sample that outlives its stream makes the cache of an inactive sensor valid |
| ProtocolWitnesses.PlainGetOfOnlyObserverFaults | ze_coap_resources.c:531-552 | a plain GET of the only observer, before the first sample, reaches the read of a missing stream |
| ProtocolInvariants.StepKeepsInvariant | ze_streaming_manager.c:229-592 | every step of either thread keeps the rings, the response in hand, the sensor table, the stream bookkeeping and the reference ledger in agreement |
| ProtocolInvariants.DispatchIsEvent | ze_streaming_manager.c:237-299 | serving a request on the sensor table is the ledger's event: the stream it starts or ends, the answer it owes, or the fault |
| ProtocolInvariants.ConsumeIsEvent | ze_coap_server_core.c:155-232 | consuming a response is the ledger's event, and an empty ring changes nothing |
| ProtocolInvariants.DeferIsEvent | ze_streaming_manager.c:783-788 | setting a request aside keeps the pending sequence on the shared queue and loses its head by value |
| ProtocolInvariants.FetchedPending | ze_streaming_manager.c:796-816 | fetching takes the oldest of deferral queue and ring, and a filler takes nothing |
| ProtocolInvariants.PutRequestKeepsPending | ze_sm_reqbuf.c:57-82 | a put moves the request in hand to the end of the pending sequence, or leaves it in hand |
| ProtocolInvariants.LiveAfterStart | ze_streaming_manager.c:821-886 | starting makes the ticket's stream run in the given life and leaves every other ticket's; it returns a stream exactly if none ran |
| ProtocolInvariants.LiveAfterStop | ze_streaming_manager.c:888-947 | stopping ends that ticket's stream alone, and reports not found exactly if none ran |
| ProtocolInvariants.ContinueKeepsInvariant | ze_streaming_manager.c:402-531 | after a put the manager goes on with the next one-shot, stream or queue, and the invariant holds |
| ProtocolLogs.StepKeepsLogged | ze_streaming_manager.c:756-816 | every step keeps the request order, the response order and the one-shot balance |
| ProtocolLogs.DispatchOneshots | ze_streaming_manager.c:259-296 | serving a request adds one pending or cached answer if it is a one-shot of the ticket, and none otherwise |
| ProtocolLogs.PutKeepsOneshotLog | ze_streaming_manager.c:399-426 | the answer put is the one for the one-shot removed, once |
| Ledger.ServeKeepsSound | ze_streaming_manager.c:237-258 | serving any request keeps conservation, coverage of updates and the anchoring of requests to their ticket's life |
| Ledger.ConsumeKeepsSound | ze_coap_server_core.c:161-258 | releasing on STREAM_STOPPED and checking out for a confirmable update keep them |
| Ledger.ObserveKeepsSound | ze_coap_resources.c:456-484 | a GET with observe keeps them, whether it finds the registration, which stays the one it was, or a new one of a later number takes the free address |
| Ledger.UnregisterKeepsSound | ze_coap_resources.c:568-588 | a STOP without a checkout keeps them |
| Ledger.LoseKeepsSound | ze_streaming_manager.c:788-816 | losing a request keeps them, with the loss on the books |
| Ledger.OldestResponseIsHeld | ze_coap_server_core.c:212-232 | the oldest unconsumed response names a registration that the manager still owes, in the same life |
| Ledger.StopIsOfStreamsLife | ze_streaming_manager.c:897-913 | a STOP at the head of the queue is of the life of the stream it finds |
| Ledger.QuiescentDebt | ze_coap_server_core.c:167-173 | with nothing in flight the debt is exactly the running streams and the lost STARTs |
| RingModel.FifoUnderEveryInterleaving | ze_sm_resbuf.c:18-113 | under every interleaving of one producer and one consumer, with lost signals and timeouts, the ring stays within its slots and what was there plus what was accepted is what was taken plus what is left |
| RingModel.BareInsertAppendsIffNotFull | ze_sm_reqbuf.c:62-77 | the untested insertion after the wait is an append if and only if a slot is free, and on a full ring it overwrites the oldest item |
| RingModel.InsertAtTail | ze_sm_reqbuf.c:68-77 | writing the slot at `puthere` and advancing appends to the queue and keeps puthere = (gethere + counter) % 20 |
| RingModel.RemoveAtHead | ze_sm_reqbuf.c:41-46 | advancing `gethere` removes the oldest item and keeps the index equation |
| RingBuffers.RingBuffer.constructor | ze_sm_reqbuf.c:85-115 | an empty ring of 20 slots with nobody waiting |
| RingBuffers.RingBuffer.Take | ze_sm_resbuf.c:18-47 | returns the head of the queue, or none without blocking, removes it, and wakes a waiting producer |
| RingBuffers.RingBuffer.Enter | ze_sm_resbuf.c:85-103 | appends, or starts waiting exactly if 20 items are queued |
| RingBuffers.RingBuffer.Tick | ze_sm_resbuf.c:88-90 | the timed wait runs out, and the queue is unchanged |
| RingBuffers.RingBuffer.Leave | ze_sm_resbuf.c:93-112 | after a signal appends without a test; after a timeout leaves the queue as it was and says so |
| RequestIntakes.RequestIntake.Fetch | ze_streaming_manager.c:796-816 | returns the oldest pending request and leaves the rest in order, or takes a filler |
| RequestIntakes.RequestIntake.Defer | ze_streaming_manager.c:780-788 | on the shared queue, deferring changes nothing about the pending requests and leaves a free slot in the ring |
| RequestIntakes.RequestIntake.PutResponse | ze_streaming_manager.c:756-793 | however many waits expire, the loop puts the response once, at the end of the ring, with one request set aside for each expiry and the pending requests unchanged |
| RequestIntakes.RequestIntake.DeferByValue | ze_streaming_manager.c:756-789 | as coded, the request leaves the ring for a copy of the list, and the caller's queue is as before |
| SensorModel.StartKeepsConsistent | ze_streaming_manager.c:843-883 | a start keeps active = demanded, distinct tickets and the frequency bounds, with and without memory |
| SensorModel.StopKeepsConsistent | ze_streaming_manager.c:919-940 | a stop keeps them, and leaves the exact maximum |
| SensorModel.OneshotsKeepConsistent | ze_streaming_manager.c:285-288 | registering and answering a one-shot keep them |
| SensorModel.StopFaultsIff | ze_streaming_manager.c:919-933 | the stop reads a missing stream if and only if its ticket holds the only stream and one-shots wait |
| SensorModel.StartExactIff | ze_streaming_manager.c:856-880 | a start leaves the frequency exact if and only if the new frequency is at least the sensor's or another stream asks for it |
| SensorModel.StartStreamsTicket | ze_streaming_manager.c:868-886 | afterwards the ticket streams and every other one as before; a stream is returned exactly if none was replaced |
| SensorModel.StopForgetsTicket | ze_streaming_manager.c:895-914 | afterwards the ticket streams no longer and every other one as before |
| SensorModel.OthersIsDeletion | ze_streaming_manager.c:911-912 | unlinking removes exactly the first element with the ticket |
| SensorModel.AnsweredAllIs | ze_streaming_manager.c:399-426 | answering the one-shots one by one empties the list, and turns the sensor off exactly if none stream |
| SensorModel.Find | ze_streaming_manager.c:959-967 | the first stream with the ticket, or the end of the list |
| SensorModel.MaxFreq | ze_streaming_manager.c:932-938 | an upper bound of the streams' frequencies that one of them has |
| SensorSlots.SensorSlot.StartStream | ze_streaming_manager.c:821-886 | is the specified start; all other streams stay as they are, and the new one at the tail is fresh, has delivered nothing, starts at 400 plus a number below 100, and sends confirmably, one sample to a packet, without repetition; the cache and its flag stay |
| SensorSlots.SensorSlot.StopStream | ze_streaming_manager.c:888-947 | is the specified stop, takes exactly the first stream with the ticket off the list, finds it exactly if the ticket streams, invalidates the cache exactly when it turns the sensor off, and faults exactly where the code reads a stream that is not there |
| SensorSlots.SensorSlot.FindStream | ze_streaming_manager.c:959-967 | the loop finds the specified position, and the end exactly if the ticket has no stream |
| SensorSlots.SensorSlot.ReconsiderFrequency | ze_streaming_manager.c:932-938 | the loop computes the maximum |
| SensorSlots.SensorSlot.AskOneshot | ze_streaming_manager.c:261-288 | answered with the cached event if it is valid, or registered at the tail and the sensor active; the cache and its flag stay |
| SensorSlots.SensorSlot.AnswerOneshots | ze_streaming_manager.c:399-426 | answers every pending one-shot in registration order and leaves what the specification says |
| SensorSlots.SensorSlot.HandleSample | ze_streaming_manager.c:387-531 | a sample is cached unless a carrier made it, answers the pending one-shots in order, and then reaches every stream once; afterwards the cache is valid, unless the sensor was turned off with its last one-shot or a carrier made the sample and it was not valid before |
| SensorSlots.DeliverToStreams | ze_streaming_manager.c:433-531 | each stream of the list gets the sample exactly once and sends its own packet; none disturbs another |
| StreamModel.TimestampDrift | ze_streaming_manager.c:446-454 | after n samples the drift from a 1000 Hz clock is n * (1000 % f), between 0 and n * (f - 1) (section 5.1 of RFC 3550) |
| StreamModel.DriftFreeIff | ze_timing.h:16 | timestamps never drift if and only if f divides 1000 |
| StreamModel.IncreasingIff | ze_streaming_manager.c:446-454 | timestamps strictly increase if and only if f <= 1000 |
| StreamModel.StampedAt | ze_streaming_manager.c:446-453 | sample i carries the start timestamp plus i + 1 periods |
| StreamModel.BundleIsSlice | ze_streaming_manager.c:440-484 | equal bundles whose concatenation is known are its consecutive slices |
| StreamModel.RecoveryIff | ze_streaming_manager.c:485-527 | a receiver of the arriving pairs has every sample and timestamp, in order, if and only if no two packets in a row and not the last were lost |
| StreamModel.PlayoutIsCovered | ze_streaming_manager.c:485-527 | for any losses the receiver has exactly the samples that some arriving packet carries, each once, in order |
| Streams.Stream.constructor | ze_streaming_manager.c:830-840 | an empty stream with its start timestamp |
| Streams.Stream.Deliver | ze_streaming_manager.c:440-528 | keeps the invariant of the policy in force, for every buffer size; sends the last bufferful exactly when the buffer is full, and always a pair when repeating |
| Streams.Stream.BufferAndSend | ze_streaming_manager.c:440-484 | packets sent plus buffer contents grow by exactly the stamped sample, the level stays below the size, and samples sent = size * packets |
| Streams.Stream.BufferAndRepeat | ze_streaming_manager.c:485-527 | sends the previous sample (or the same) and the current one, and keeps the current one for the next pair |
| Streams.Stream.PacketIsSlice | ze_streaming_manager.c:440-484 | packet i is slice i of the stamped events: nothing lost, repeated or reordered |
| Streams.Stream.EachEventAtOnce | ze_streaming_manager.c:440-484 | a stream as the code starts them sends every event at once, once, alone in its packet, with its timestamp |
| Streams.Stream.ReceiverRecoversIff | ze_streaming_manager.c:485-527 | what a repeating stream has sent can be recovered if and only if losses are isolated |
| NotificationModel.ReportsAreAccurate | ze_coap_server_core.c:279-304 | each report states the count and octets of the data notifications before it (section 6.4.1 of RFC 3550) |
| NotificationModel.ReportsArePaced | ze_coap_server_core.c:288-304 | the first notification is reported at once, the data sent is at most 1000 octets more than the last report states, and 1001 * (reports - 1) <= octets after the first |
| NotificationModel.ReportsAreDue | ze_coap_server_core.c:286-322 | a report follows a data notification if and only if that is the first, or the data sent up to it is more than 1000 octets above what the last report states |
| NotificationModel.NumbersAreConsecutive | ze_coap_server_core.c:241-298 | data notifications are numbered consecutively modulo 2^16, and a report carries the number of the data that follows (sections 3.4 and 4.4 of RFC 7641) |
| NotificationModel.NumbersGrowUntilWrap | ze_coap_server_core.c:241-298 | before the wrap numbers never decrease, and two are equal exactly for a report and the data right after it |
| NotificationModel.UnconfirmedAreBounded | ze_coap_server_core.c:248-268 | never more than the limit of data notifications in a row goes unconfirmed |
| NotificationModel.EveryPacketIsSent | ze_coap_server_core.c:237-277 | every packet of a known type is sent once, in order, with its own bytes, confirmably if and only if it asks for it or the limit of unconfirmed ones in a row is reached |
| NotificationModel.EverySession | ze_coap_server_core.c:232-328 | the registration's counters, that of the octets last reported included, agree with the messages sent, for every sequence of packets |
| Registrations.Registration.NotifyUpdate | ze_coap_server_core.c:212-345 | the session stays that of the packets let through; a registration that failed too often sends and changes nothing |
| Registrations.Registration.Send | ze_coap_server_core.c:247-326 | the notification, its reliability, its counters and the report due with it are the specified ones |
| PayloadModel.ReceiveOfLayoutIff | ze_streaming_manager.c:1265-1411 | a receiver that follows the header gets kind, count, timestamps and texts back if and only if the packet has at most 32767 bytes; the length is 4 + num * (4 + 20k) |
| PayloadModel.WireNumberIff | ze_streaming_manager.c:1280-1287 | an n-byte integer survives network order if and only if it fits its type |
| PayloadModel.ReportLengthIsWrong | ze_coap_server_core.c:495-508 | no report has the length that its header declares, which is 15, so a receiver that checks it refuses every one |
| PayloadModel.ReceiveReportOfLayout | ze_coap_server_core.c:485-543 | the fields of a sender report come back from its bytes |
| PayloadModel.LittleIsReversed | ze_coap_server_core.c:547-569 | network order is little-endian memory read backwards |
| Encoders.Encode | ze_streaming_manager.c:1251-1416 | the loop fills exactly the declared length with the specified bytes, 64 to a sample of the accelerometer, the orientation sensor and the gyroscope, 24 to one of light and proximity; other sensor kinds get no data |
| Encoders.EncodeRecord | ze_streaming_manager.c:1285-1295 | one timestamp and the printed values, NUL-padded, and zeros after them |
| Encoders.HostToNetwork | ze_coap_server_core.c:547-569 | network order on either kind of host |
| Encoders.FormReport | ze_coap_server_core.c:483-545 | the 39 bytes of a report |
| CarrierThreads.AtMostOneCarrier | ze_streaming_manager.c:1104-1130 | under every interleaving at most one carrier of a sensor exists, and until global exit the flag says whether one does, outside the window before it is set |
| CarrierThreads.ActivationCarriesOnIff | ze_carrier.c:26-56 | under every interleaving from the test of the flag to the manager's return, short of global exit, an activation leaves a carrier that goes on if and only if none was past its loop when the flag was tested |
| CarrierThreads.EveryCarrierEnds | ze_carrier.c:26-56 | once the program exits, or while the sensor stays off, under every interleaving the steps that the carriers still need, two for one that loops and one for one past its loop, go down by one with each step that a carrier takes |
| CarrierThreads.CarrierGoesOn | ze_carrier.c:26-56 | until the sensor is turned off or the program exits its carrier loops on and no other is created, whatever is activated meanwhile |
| CarrierThreads.ActiveSensorWithoutCarrier | ze_carrier.c:51-56 | turning a sensor off and on can leave it active without a carrier |
| CarrierThreads.RunKeepsInvariant | ze_carrier.c:26-56 | every run of the two threads keeps the agreement of flags and threads |
| CarriersQueues.CarriersQueue.Get | ze_carriers_queue.c:11-43 | takes the first event, or none without blocking |
| CarriersQueues.CarriersQueue.Put | ze_carriers_queue.c:46-85 | appends the event at the tail of the linked list, or leaves it without memory |

## Left out

- Progress.PutCompletes: like `ServerPutCompletes`, speaks of fair runs, in which each thread acts within a window of steps; how the operating system schedules them is not modelled.
- RequestIntakes.RequestIntake.Defer: is one turn of the loop, of which `PutResponse` is the whole.
- RequestIntakes.RequestIntake.PutResponse: of the server's steps meanwhile it takes in the one that ends the wait; all others are the step machine's.
- ServerProgress.ServerPutCompletes: assumes that event-based readings do not come faster for ever than the inner loop that caches them turns, because the code bounds that loop by nothing.
- ProtocolOutcomes.StreamsAreWanted: claims nothing once the manager has read past a stream list.
- SensorSlots.SensorSlot.StopStream: claims nothing of the sensor's frequency after the fault, where the code's behaviour is undefined.
- ProtocolReleases.EverythingElseCanBeReleased: excludes the states in which a STOP is pending for a sensor on which a one-shot waits; some of them have a fault as the only way on (`FaultKeepsItsReference`), others not.
- Deliveries.ObserverGetsTheReadings: is about one stream of a registration, from its start on; a replacement starts a new one. That each packet is the one `Stream.Deliver` returns is a condition on the run, because the step machine keeps no send buffers.
- SensorSlots.SensorSlot.AnswerOneshots: takes the whole list in one call and returns tickets; the packet of each answer is the encoder's, its message type is left out, and the puts between them are steps of the machine.
- SensorSlots.SensorSlot.AskOneshot: returns the cached event; the packet made of it is the encoder's, and its message type is left out.
- ProtocolStreams.HandlersAreObeyed: assumes that `sm_new_stream` gets its memory; `SensorsServe` does not.
- Streams.Stream.Deliver: timestamps and sample counts are unbounded, so the wrap of the 32-bit fields after some 24 days is not modelled.
- Registrations.Registration.NotifyUpdate: packet and octet counts are unbounded; only the 16-bit observe number wraps.
- Encoders.Encode: a printed value is a text of at most 19 characters without NUL; what `sprintf("%e")` prints is not modelled.
- Encoders.FormReport: takes the extrapolated RTP timestamp and the clock reading as given; the floating-point interpolation is not modelled.
- CarrierThreads.AtMostOneCarrier: claims of the flag nothing after global exit, when a thread may end before its creator sets it.
- Linked lists of streams, one-shots and deferred requests are sequences held in fields; only the carriers queue is modelled with its links.
- Sockets, select, JNI and GPS calls, the Android sensor interface, logging and the statistics at exit: input, output or foreign code.
- The CoAP library: retransmission, message building, options, lookup of registrations and asynchronous requests. A reference count per ticket and a count of unsettled confirmable messages stand for it.
- What a one-shot answer does at the server (`ze_coap_server_core.c:174-211`): it only calls the library.
- The contents of the event caches in the step machine, and the copy of a report to a second port.
- Allocation failure, except in `sm_new_stream` and `put_carrier_event`.
- Global exit of the server and the manager, and the carrier's sleep computed in floating point.
- `ze_rtp_server_core.c`, which is not built, and the per-sensor wrappers, root and example server, which are plumbing.
