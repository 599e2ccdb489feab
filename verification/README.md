# ESP32 NTRIP base station: verified core

This project models the four stateful cores of an ESP32 GNSS base station and NTRIP server, and
proves what each of them is for.

* **NTRIP slot runtime** (`slot_model.dfy`, `slot_protocol.dfy`, `slot_theorems.dfy`, `slot_delivery.dfy`,
  `slot_commands.dfy`, `slot_requests.dfy`, `slot_runtime.dfy`, `qos.dfy`). Five slots, their tasks, one mutex, the
  supervisor, the RTCM fanout and the external commands are a transition system. A locked block is one step; the fanout and restart loops hold the mutex over
  several steps while buffer reads, socket calls and configuration reads go on beside them. Descriptors are
  tracked twice, by the slots and by the operating system. The theorems hold in every interleaving.
* **Receiver core** (`ubx_parser.dfy`, `line_assembler.dfy`, `uart_receiver.dfy`, `satellite_table.dfy`,
  `raw_console.dfy`, `command_queue.dfy`). The byte-at-a-time parser, the line buffer, the satellite array and
  the console buffer are classes that change their fields and arrays in place. Each is proved against a
  simple reference: a whole-buffer scanner, runs between line ends, a recency list, the tail of a log. The
  command queue with its retry-to-front consumer is a transition system.
* **mDNS responder** (`tx_queue.dfy`, `probing.dfy`, `txt_record.dfy`, `fqdn.dfy`, `srv_tiebreak.dfy`,
  `mangle.dfy`). The transmit queue and the probe/announce state machine run over every interleaving of timer,
  service task and restarts. Name expansion is a recursive reader proved against section 4.1.4 of RFC 1035,
  the TXT decoder against its encoder, tie-breaking against an order on the records, and renaming against
  counting.
* **Slot configuration store** (`slot_store.dfy`). One table in memory, a storage blob, and the older keys of
  slots 0 and 1, with every way a save can fail.

Some claims one would like to make are false of the code. They are stated with the input that breaks them and
the exact condition under which they hold:

* *A TXT list always survives encoding and decoding.* An entry without a value makes the decoder advance one
  byte too far (mdns.c:3603). The list survives if and only if every entry but the last has a value
  (`TxtRecord.RoundTrip`, `TxtRecord.ValuelessKeyBreaksList`).
* *The items found in a TXT record fit the array counted for them.* For the same reason the storing pass can
  find more items than the counting pass. They fit when every item but the last has an '=', which is exactly when
  both passes find the same items. If an item in front of the last has none, let n be the address behind the first
  such item: the array is too short exactly when the storing pass stores more items from n + 1 on than the
  counting pass counts from n on, plus the items in front of it that start with '=' (`TxtRecord.MoreStoredIff`,
  `TxtRecord.StoredVersusCounted`, `TxtRecord.StoredWithinCount`, `TxtRecord.PassesAgreeIff`, with
  `TxtRecord.MoreStoredThanCounted` and `TxtRecord.OutOfStepWithinCount` for the two outcomes).
* *A caster is sent every byte the task takes for it.* What a write leaves over is dropped, not tried again. The
  connection is sent what was taken for it exactly when no write on it failed or fell short, and else the same
  bytes in the same order with gaps (`SlotDelivery.ConnectionGets`, `SlotDelivery.ShortWriteLoses`).
* *A slot's state says what its task does.* It does until a disable, a restart or a supervisor decision writes it;
  after a disable that is taken back at once it shows DISABLED while the task goes on
  (`SlotCommands.StateSaysWhatTaskDoes`, `SlotCommands.RunsWhileDisabled`).
* *A slot's request goes out on the slot's own connection.* The task keeps a copy of its descriptor, and a disable,
  mock change or restart closes the descriptor meanwhile, so its number may come to be another slot's. The copy is
  a descriptor the slot has open exactly when none of the three reached the slot since it was stored
  (`SlotRequests.OwnSocketUnlessCut`, `SlotRequests.CutMisdirects`, `SlotRequests.RequestOnOtherSocket`).
* *An announcement always follows three probes.* Removing the last probed service while no address is probed,
  or probing without a host name, takes a short cut to RUNNING, from where an announcement needs no probe. In
  every run the first announcement after PROBE_1 comes straight after three well-timed transmissions of one
  probe packet exactly when no such short cut led to it
  (`Probing.FirstAnnouncement`, `Probing.ThreeProbesBeforeAnnounce`, `Probing.AnnouncedWithoutProbing`).
* *A compressed name reads like the same name written out.* For host names under "local" it does, and for
  service instance names exactly when no pointer to a zero octet follows "local", which makes the name invalid
  (`Fqdn.HostName`, `Fqdn.ServiceInstanceName`, `Fqdn.RootPointerInvalidates`).
* *Whenever the store returns OK, a reboot would bring back the same table.* A failed save leaves the new slot
  in memory, and a later get returns it with OK. Set and sync that return OK are safe. In general a set or sync
  ends in agreement exactly when its save landed or nothing was to change, and a run exactly when the table in
  memory is the one that landed last (`SlotStore.OkMutationAgrees`, `SlotStore.MutationAgreesIff`,
  `SlotStore.RunAgreesIff`, `SlotStore.GetReturnsStoredIff`, `SlotStore.GetOkAfterFailedSave`).

`dafny verify dfyconfig.toml` checks everything.

## Model

| member | source | states |
|---|---|---|
| SlotProtocol.StepKeeps | main/ntrip_runtime.c:556-655 | every step of every participant keeps the joint invariant of tasks, handles, flags, sockets and stream buffers |
| SlotTheorems.SlotSafety | main/ntrip_runtime.c:556-655 | in every interleaving: at most one live task per slot, live iff the handle names it; working states imply a running task; a task dials only while the slot holds no socket; every close hits a descriptor that slot has open, so none is closed twice; a slot without a task has closed everything it opened |
| SlotModel.TaskStepGood | main/ntrip_runtime.c:450-655 | each step of the slot task keeps flags, state and descriptor bookkeeping in agreement and moves bytes or restarts the traffic record |
| SlotDelivery.BytesAccounted | main/ntrip_runtime.c:597-628 | in every interleaving what a task took since it started is what it wrote, what it lost and the block in its hands, and the byte and packet counters are what it wrote but for a block about to be counted |
| SlotDelivery.ConnectionGets | main/ntrip_runtime.c:597-628 | in every interleaving a connection was sent what was taken for it, in order with gaps, and without a gap up to the block in hand iff nothing was lost on it; what was taken for it is what left the buffer |
| SlotDelivery.ShortWriteLoses | main/ntrip_runtime.c:614-628 | a write that falls short loses the rest of its block |
| SlotCommands.StartTells | main/ntrip_runtime.c:562-578 | a task's start clears the stop flag, the counters and the buffer |
| SlotCommands.EndTells | main/ntrip_runtime.c:644-652 | its end gives up the handle and leaves the slot disabled and not wanted |
| SlotCommands.WaitsAreCounted | main/ntrip_runtime.c:587-642 | the reconnect counter counts the waits for a reconnection |
| SlotCommands.StopTells | main/ntrip_runtime.c:1159-1262 | a restart, disable, mock change or refusal by the supervisor raises the stop flag and publishes its state; the first three leave no descriptor; a new mock is stored |
| SlotCommands.AdmissionTells | main/ntrip_runtime.c:992-1002 | an admitted slot is given a task if it has none and is left running if it has one |
| SlotCommands.StoppedTaskEnds | main/ntrip_runtime.c:580-655 | in every interleaving a task past its start with the flag up keeps it up and takes at most 15 more steps, unless its slot is enabled again |
| SlotCommands.StateSaysWhatTaskDoes | main/ntrip_runtime.c:556-655 | in every interleaving the published state goes on saying what the task does until somebody else writes it |
| SlotCommands.RunsWhileDisabled | main/ntrip_runtime.c:1254-1260 | a slot disabled and enabled again shows DISABLED with its task where it was |
| SlotProtocol.CommandKeeps | main/ntrip_runtime.c:1225-1262 | enabling, disabling or mocking a slot, at any moment the mutex is free, keeps the joint invariant |
| SlotProtocol.RestartMoveKeeps | main/ntrip_runtime.c:1159-1171 | so does each iteration of the restart loop, which closes the socket of a slot its task may be using |
| SlotTheorems.FanoutExact | main/ntrip_runtime.c:381-401 | in every interleaving, since the last reset, received bytes followed by buffered bytes are the concatenation in order of one prefix per chunk; the cut prefixes are exactly the drops counted; used <= high water <= 2048 |
| SlotTheorems.SendStores | main/ntrip_runtime.c:388-392 | in every interleaving the fanout's send stores the whole chunk if it fits and else up to the last byte of the buffer, and exactly then reports it cut |
| SlotTheorems.NoteCounts | main/ntrip_runtime.c:393-399 | the accounting behind it counts one drop if the chunk was cut and raises the high-water mark to the fill level |
| SlotTheorems.EveryChunkOffered | main/ntrip_runtime.c:381-409 | while a slot runs undisturbed the chunks offered to it are exactly the fanout's inputs, in order, none skipped or repeated |
| SlotTheorems.Isolation | main/ntrip_runtime.c:381-401 | two runs that address a slot by the same steps leave it the same, whatever the other slots' buffers and tasks do |
| SlotTheorems.PassSlotOk | main/ntrip_runtime.c:955-1021 | one slot of a supervisor pass is wanted iff it is enabled, memory allows it and fewer than the limit enabled slots precede it; the slots already decided stay admissible |
| SlotTheorems.AdmissionAtPassEnd | main/ntrip_runtime.c:955-1071 | at the end of every pass, in every interleaving, only admissible slots are wanted, and if all configurations were readable no more than the limit are |
| SlotTheorems.CriticalPersists | main/ntrip_runtime.c:1023-1071 | once a slot's buffer was critically full every later pass that reads its configuration ends CRITICAL, until its task starts again |
| SlotTheorems.CriticalUntilRestart | main/ntrip_runtime.c:562-578 | the same seen from between two passes: only the start block of that slot's task resets the high-water mark |
| Qos.ClassifyMonotone | main/ntrip_runtime.c:1023-1071 | less heap, more sockets, fuller buffers or a recent drop never improve the level |
| Qos.ClassifyIs | main/ntrip_runtime.c:1023-1060 | CRITICAL and NORMAL threshold by threshold |
| Qos.PassVerdict | main/ntrip_runtime.c:1023-1071 | over any sequence of passes the last ends CRITICAL iff memory, sockets or buffers are, or a pass of the last 15 s saw more drops than ever before; the raw console is off exactly then |
| Qos.FakeStopsIff | main/ntrip_runtime.c:1061-1067 | the fake source has been told to stop iff some pass ended CRITICAL |
| SlotTheorems.MonitorIsOfPasses | main/ntrip_runtime.c:1023-1071 | in every interleaving level and flags are those of the passes completed so far |
| SlotRuntime.Runtime.FanoutRtcm | main/ntrip_runtime.c:381-401 | every running slot has the whole chunk behind what it had if that fits into 2048 bytes, and else is filled to the last byte and counts a drop; its high-water mark is raised to the fill level; the others are left alone |
| SlotRuntime.Runtime.RestartAll | main/ntrip_runtime.c:1159-1171 | every slot is told to stop and shown as disconnected, its buffer emptied if the reset works, and exactly the sockets that were open are closed |
| SlotRuntime.Runtime.SupervisorPass | main/ntrip_runtime.c:955-1071 | every slot whose configuration can be read is decided by the admission rule, the others left alone; the active tasks are counted, and the level is that of the fullest buffer, the highest mark and the sum of the drops |
| SlotRuntime.FanoutIsRun | main/ntrip_runtime.c:381-401 | the fanout loop's result is that of a run of protocol steps |
| SlotRuntime.PassIsRun | main/ntrip_runtime.c:955-1071 | the supervisor loop's result is that of a run of protocol steps |
| SlotRequests.OwnSocketUnlessCut | main/ntrip_runtime.c:470-497 | in every interleaving, while the task keeps its copy of the descriptor for request and reply, the copy is open for its slot iff no command disabled, mocked or restarted the slot since it was stored |
| SlotRequests.CutMisdirects | main/ntrip_runtime.c:1240-1262 | from every state with a task about to write its request and a task of another slot dialing, a disable and a successful dial put the request on the other slot's socket |
| SlotRequests.RequestOnOtherSocket | main/ntrip_runtime.c:470-497 | a run from the start in which slot 0's request goes out on slot 1's socket |
| UbxParser.ChecksumClosedForm | main/receiver.c:1061-1065 | after n bytes ck_a is their sum and ck_b their (n-i)-weighted sum modulo 256 |
| UbxParser.IncrementalAgreesWithScan | main/receiver.c:1067-1148 | on every byte stream the incremental parser reports exactly the frames, with class, id and payload, that a whole-buffer scan finds |
| UbxParser.Chunking | main/receiver.c:1150-1190 | however a stream is cut into chunks, state and reports are the same |
| UbxParser.FrameAccounting | main/receiver.c:1067-1148 | frames started = dispatched + rejected + (1 if mid-frame), from any state over any bytes |
| UbxParser.ReachableAlways | main/receiver.c:1049-1148 | every reachable state keeps its offset, length, payload and storage flag consistent |
| UbxParser.ResyncWithin | main/receiver.c:1067-1148 | from any reachable state the parser is back in SYNC_1 within 65541 further bytes or the stream is shorter |
| UbxParser.FrameVerdict | main/receiver.c:1067-1148 | what the parser makes of any body behind a sync pair with any two check bytes |
| UbxParser.IntactFrameDispatched | main/receiver.c:1110-1148 | an intact frame of at most 1024 payload bytes is dispatched with exactly its contents, a longer one rejected |
| UbxParser.PacketDispatched | main/receiver.c:1067-1148 | the octets 0xB5 0x62, class, id, length low byte first, payload and both sums are dispatched as that packet, or rejected if the payload exceeds 1024 |
| UbxParser.OneByteErrorRejected | main/receiver.c:1088-1142 | a frame with one class, id or payload byte altered is always rejected |
| UbxParser.SwapErrorRejected | main/receiver.c:1088-1142 | a frame with two unequal adjacent class/id or payload bytes swapped is always rejected |
| LineAssembler.AssemblyMatchesRuns | main/receiver.c:1161-1188 | over any stream, each run of k printable bytes delivers its last k mod 256 as one line (none if 0) and counts k div 256 overflows; the line never exceeds 255 bytes |
| LineAssembler.Chunking | main/receiver.c:1150-1190 | chunk boundaries make no difference to the lines |
| LineAssembler.TextDelivered | main/receiver.c:1161-1188 | any 1 to 255 characters from 32 to 126 are delivered as they are by a CR or LF |
| LineAssembler.NoiseIgnored | main/receiver.c:1177-1179 | every other byte changes nothing |
| UartReceiver.Receiver.UbxFeedByte | main/receiver.c:1067-1148 | one byte moves the in-place parser fields as one step of the parser; the packet its branches hand over from fields and buffer, or the rejection and its count, is that of the step |
| UartReceiver.Receiver.LineFeedByte | main/receiver.c:1161-1188 | one byte moves the in-place line buffer exactly as one step of the assembler |
| UartReceiver.Receiver.UartHandler | main/receiver.c:1150-1190 | a chunk extends the history by its bytes; parser, lines and error counters stay those of the whole history |
| UartReceiver.Receiver.ReceiverInit | main/receiver.c:1503-1570 | the handler accepts bytes from then on, and only if mutex and queue could be allocated |
| SatelliteTable.Table.Find | main/receiver.c:468-525 | the lookup returns the entry of the key, else the first free one, else the oldest, and claims it for the key in place |
| SatelliteTable.Table.UpdateSatellite | main/receiver.c:491-525 | a sighting is recorded as a touch of its key at the current time |
| SatelliteTable.Table.SetUsed | main/receiver.c:527-538 | marking a satellite used is a touch as well |
| SatelliteTable.Table.MarkUsedFromGsa | main/receiver.c:651-671 | so is the marking from a GSA sentence |
| SatelliteTable.CompactKept | main/receiver.c:468-525 | a touch keeps the active entries a prefix of the array with pairwise distinct keys |
| SatelliteTable.RankIsTouchedSince | main/receiver.c:468-538 | the keys in front of a key in the recency list are exactly those touched after its last touch |
| SatelliteTable.OldestIsLeastRecent | main/receiver.c:468-490 | on a full table with a strict clock the entry to evict is the least recently touched key held |
| SatelliteTable.TouchRefines | main/receiver.c:468-538 | under a strict clock one touch moves the array as it moves the recency list |
| SatelliteTable.LeastRecentlySeenCache | main/receiver.c:468-538 | after any sequence of touches on a strict clock the table holds a key iff fewer than 64 distinct others were touched since |
| SatelliteTable.Table.HoldsMostRecentlySeen | main/receiver.c:468-538 | the same of the table object after whatever calls it has seen |
| RawConsole.Console.AppendRaw | main/receiver.c:379-420 | a record is prefix, text and newline cut to 191 characters; the console buffer is the last size-1 characters of everything recorded since the last clear, NUL-terminated, with its length published |
| RawConsole.Console.SetEnabled | main/receiver.c:1728-1742 | disabling clears buffer and log |
| RawConsole.Console.GetRawOutput | main/receiver.c:1744-1770 | a reader gets the longest prefix of the buffer that fits |
| RawConsole.BufferIsTailOfLog | main/receiver.c:379-420 | over any number of records, dropping as it goes keeps exactly the tail of the whole log |
| CommandQueue.TransmitsInOrderAtMostTwice | main/receiver.c:1444-1501 | in every interleaving the attempted commands, immediate repeats collapsed, are the first accepted ones in FIFO order without a gap, each attempt sends the text that was accepted, and none is attempted more than twice |
| CommandQueue.RetriedIffUnanswered | main/receiver.c:1466-1492 | in every interleaving an attempt is followed by another of the same command iff it was sent, not answered, the first, and found room in the queue |
| CommandQueue.SettleTells | main/receiver.c:1466-1500 | an answered attempt is over; an unanswered one puts its command back at the front if it may, and else is timed out or dropped |
| CommandQueue.EnqueueTells | main/receiver.c:1264-1297 | a command of 1 to 127 characters goes behind the others if fewer than twelve wait; any other changes no more than the status |
| CommandQueue.WorkFalls | main/receiver.c:1444-1501 | over any run the transmissions owed fall by one per command taken and grow by at most two per command accepted |
| CommandQueue.IterationLowersWork | main/receiver.c:1444-1501 | an iteration of the consumer without new arrivals lowers the sum of 1 + retries_left over the queue |
| CommandQueue.AtLeastSeventeen | main/receiver.c:1348-1442 | every profile enqueues at least 17 commands |
| CommandQueue.AppliedOnlyIfDrained | main/receiver.c:1348-1442 | a profile application returns OK only if the consumer took at least 5 commands, plus all left in the queue, meanwhile |
| CommandQueue.AppliedEnqueuesAll | main/receiver.c:1348-1442 | while nobody else enqueues, a profile application that succeeds enqueues its requests, all of them, in order |
| TxQueue.Queue.Schedule | managed_components/espressif__mdns/mdns.c:1586-1604 | a packet is linked in before the first that is due later; the queue stays sorted |
| TxQueue.Queue.ClearPcb | managed_components/espressif__mdns/mdns.c:1625-1645 | both list walks together remove exactly the packets of one interface and protocol |
| TxQueue.InsertKeepsOrder | managed_components/espressif__mdns/mdns.c:1586-1604 | scheduling keeps the queue sorted by send time, packets with equal times in scheduling order |
| TxQueue.InsertAddsOne | managed_components/espressif__mdns/mdns.c:1586-1604 | scheduling adds that packet and loses none |
| TxQueue.WithoutSplits | managed_components/espressif__mdns/mdns.c:1625-1645 | what clearing keeps and what it removes make up the queue |
| TxQueue.WithoutOthers | managed_components/espressif__mdns/mdns.c:1625-1645 | nothing of the cleared interface and protocol stays, and every other one keeps its packets in order |
| TxQueue.WithoutKeepsOrder | managed_components/espressif__mdns/mdns.c:1625-1645 | clearing keeps the queue sorted |
| Probing.Responder.InitProbe | managed_components/espressif__mdns/mdns.c:2254-2345 | the services already being probed stay at the end of the list, the new ones come in front, each once, and the address is probed if it was or is to be; one probe packet is scheduled after the delay; a failed allocation or a server without a name leaves what the source leaves; the other PCBs and their packets are left alone |
| Probing.ProbeStarts | managed_components/espressif__mdns/mdns.c:2254-2345 | the same of the protocol's probe step |
| Probing.FreshServices | managed_components/espressif__mdns/mdns.c:2322-2337 | the nested loops find exactly the services not being probed yet, in order |
| Probing.Responder.TxHandlePacket | managed_components/espressif__mdns/mdns.c:5086-5141 | the head is sent unless its PCB is off, its PCB moves to the next state, and the packet follows after 250 or 1000 ms, or an announcement in its place; nothing else changes |
| Probing.AnnounceTells | managed_components/espressif__mdns/mdns.c:2442-2500 | an announcement is a probe start while probing, starts over while announcing, and is sent at once by a running PCB |
| Probing.RemovalTells | managed_components/espressif__mdns/mdns.c:2788-2842 | removing a service takes it and nothing else out of what is probed, and the probing ends with the last of it |
| Probing.Responder.SchedulerRun | managed_components/espressif__mdns/mdns.c:5332-5365 | from the first unmarked packet on every packet due when the clock is read for it is marked, or left unmarked when the action queue refuses it, up to the first that is not due or the end of memory |
| Probing.SchedulerRunIsChain | managed_components/espressif__mdns/mdns.c:5332-5365 | such a timer run is a chain of the protocol's steps, the clock moving on between them |
| Probing.ApplyKeepsInv | managed_components/espressif__mdns/mdns.c:5086-5141 | every action keeps the queue sorted and numbered and each probing PCB's packet in step with what was sent of it |
| Probing.DueIffPast | managed_components/espressif__mdns/mdns.c:5349-5351 | across the wrap-around the signed 32-bit comparison finds a packet due exactly when its time is past, if the two are within half the clock's range |
| Probing.DueIsLater | managed_components/espressif__mdns/mdns.c:5349-5351 | so a scheduled probe is never found due before its time |
| Probing.AtMostOneWhileProbing | managed_components/espressif__mdns/mdns.c:2310-2345 | in every reachable state the queue is sorted and a probing PCB has at most one packet in it, its latest probe |
| Probing.WaysOutOfProbing | managed_components/espressif__mdns/mdns.c:2775-2850 | the probe states are left for ANNOUNCE_1 iff the third probe was handed over, for RUNNING iff a short cut was taken, for OFF or DUP iff the interface was stopped |
| Probing.FirstAnnouncement | managed_components/espressif__mdns/mdns.c:2775-2850 | in every run, with stops, reopenings and failed allocations, the first ANNOUNCE_1 after PROBE_1 comes out of PROBE_3 after three transmissions of one probe iff no short cut led to it, else out of RUNNING |
| Probing.ThreeProbesBeforeAnnounce | managed_components/espressif__mdns/mdns.c:5086-5141 | in every run whose steps between PROBE_1 and the next announcement take no short cut, the PCB sends one probe packet three times or more, first after its set-up delay of at least 120 ms, then each time more than 250 ms after the last (section 8.1 of RFC 6762) |
| Probing.AnnouncedWithoutProbing | managed_components/espressif__mdns/mdns.c:2790-2816 | a run from the opening of an interface that reaches ANNOUNCE_1 with nothing sent, through PROBE_1 and RUNNING |
| TxtRecord.AppendEntry | managed_components/espressif__mdns/mdns.c:663-681 | one entry is appended behind the index iff it fits, otherwise nothing changes |
| TxtRecord.AppendData | managed_components/espressif__mdns/mdns.c:1000-1015 | the record data with its length field is exactly the encoding of the list, one zero byte for the empty list; it fails iff the packet would be full |
| TxtRecord.WireFormat | managed_components/espressif__mdns/mdns.c:663-681 | an entry is a length byte, the key, and for a value '=' and the value (section 6.3 of RFC 6763) |
| TxtRecord.ResultTxtCreate | managed_components/espressif__mdns/mdns.c:3532-3634 | the decoding loops compute the specified walk, dropping everything on malformed data |
| TxtRecord.ItemsCount | managed_components/espressif__mdns/mdns.c:3501-3522 | the counting pass |
| TxtRecord.Paid | managed_components/espressif__mdns/mdns.c:3550-3611 | decoded items pay for every byte walked over, so they exceed the data by at most one byte, and then the last one ends the data without '=' |
| TxtRecord.MisalignedFails | managed_components/espressif__mdns/mdns.c:3603-3603 | a walk that starts one byte late never yields the encoded entries |
| TxtRecord.RoundTrip | managed_components/espressif__mdns/mdns.c:3532-3634 | for every list of well-formed entries, decoding the record gives the same keys and values in order, empty values as absent, iff every entry but the last has a value (sections 6.1 and 6.4 of RFC 6763) |
| TxtRecord.PassesAgreeIff | managed_components/espressif__mdns/mdns.c:3501-3634 | the storing pass finds length bytes at the offsets where the counting pass found them iff every item but the last has an '=' |
| TxtRecord.StoredWithinCount | managed_components/espressif__mdns/mdns.c:3556-3611 | then, and that suffices, no more items are stored than the arrays were sized for |
| TxtRecord.StoredVersusCounted | managed_components/espressif__mdns/mdns.c:3556-3611 | up to the first item out of step stored and counted items differ by those that start with '=', so the rest, read one byte apart, decides |
| TxtRecord.MoreStoredIff | managed_components/espressif__mdns/mdns.c:3556-3611 | more items are stored than the arrays were sized for iff an item is out of step and more are stored behind it than are counted there and skipped in front of it |
| TxtRecord.MoreStoredThanCounted | managed_components/espressif__mdns/mdns.c:3556-3611 | data with two counted items of which three are stored |
| TxtRecord.OutOfStepWithinCount | managed_components/espressif__mdns/mdns.c:3556-3611 | data with an item out of step whose items still fit |
| TxtRecord.ValuelessKeyBreaksList | managed_components/espressif__mdns/mdns.c:3603-3603 | the smallest list that does not survive |
| Fqdn.Name.ReadFqdn | managed_components/espressif__mdns/mdns.c:450-501 | the recursive reader terminates on every byte string, each call reading a fragment that starts strictly lower, and leaves the specified name and address |
| Fqdn.Name.ParseFqdn | managed_components/espressif__mdns/mdns.c:3397-3429 | the name is what the visited labels make, moved into its fields from the domain upwards |
| Fqdn.AbsorbAll | managed_components/espressif__mdns/mdns.c:463-486 | `parts` never exceeds 4 |
| Fqdn.ExpandIs | managed_components/espressif__mdns/mdns.c:450-501 | the reader's effect is its visited labels absorbed one after the other |
| Fqdn.ReaderVisitsExpansion | managed_components/espressif__mdns/mdns.c:450-501 | a name inside the packet is accepted with labels L iff L is its expansion with every pointer leading strictly below its fragment's start |
| Fqdn.ReaderVisitsTheExpansion | managed_components/espressif__mdns/mdns.c:450-501 | the labels visited are those of section 4.1.4 of RFC 1035, which are unique |
| Fqdn.ReaderReturnsNameEnd | managed_components/espressif__mdns/mdns.c:487-501 | the returned address is right behind the name's zero octet or first pointer |
| Fqdn.ReaderMovesOn | managed_components/espressif__mdns/mdns.c:450-501 | the returned address lies beyond the start and at most one byte beyond the packet, within it for a name inside the packet |
| Fqdn.PointerRoundTrip | managed_components/espressif__mdns/mdns.c:487-494 | a compression pointer holds any offset below 16384 |
| Fqdn.ServiceInstanceName | managed_components/espressif__mdns/mdns.c:3397-3429 | however the name is compressed, instance, service, protocol and domain end up in their four fields; it is valid iff the domain is "local" or "arpa" and no pointer follows it |
| Fqdn.ServiceTypeName | managed_components/espressif__mdns/mdns.c:3409-3423 | a service type name fills service, protocol and domain, however compressed, and is valid iff the domain is "local" or "arpa" |
| Fqdn.SubtypeName | managed_components/espressif__mdns/mdns.c:463-486 | a subtype name fills all four and sets the subtype flag |
| Fqdn.ReverseName | managed_components/espressif__mdns/mdns.c:3409-3423 | the name of a reverse lookup ends up as dotted address, "in-addr" or "ip6", and "arpa" |
| Fqdn.OtherDomainsInvalid | managed_components/espressif__mdns/mdns.c:3424-3429 | no name of at least one part is valid under another domain |
| Fqdn.RootPointerInvalidates | managed_components/espressif__mdns/mdns.c:450-465 | such names with a pointer to a zero octet at the end are accepted and invalid |
| Fqdn.HostName | managed_components/espressif__mdns/mdns.c:468-480 | a host name of any number of labels, however compressed, becomes its dotted form, cut to the field, with domain "local" |
| SrvTieBreak.CheckSrvCollision | managed_components/espressif__mdns/mdns.c:2903-2955 | the buffers laid out and compared give the specified verdict |
| SrvTieBreak.CollisionIsOrder | managed_components/espressif__mdns/mdns.c:2903-2955 | the byte comparison decides by host length, then priority, weight, port and host |
| SrvTieBreak.VerdictsAreOpposite | managed_components/espressif__mdns/mdns.c:2903-2955 | swapping our record and theirs negates the result (section 8.2 of RFC 6762) |
| SrvTieBreak.TieIffIdentical | managed_components/espressif__mdns/mdns.c:2903-2955 | the result is 0 iff priority, weight, port and host are identical |
| SrvTieBreak.WinsIsTransitive | managed_components/espressif__mdns/mdns.c:2903-2955 | winning is transitive |
| SrvTieBreak.SomeoneWins | managed_components/espressif__mdns/mdns.c:2903-2955 | any set of distinct contenders has a member that wins against all others |
| SrvTieBreak.OnlyOneWins | managed_components/espressif__mdns/mdns.c:2903-2955 | and only one |
| Mangle.PrintRoundTrip | managed_components/espressif__mdns/mdns.c:230-268 | a printed number reads back as itself |
| Mangle.RenamingCounts | managed_components/espressif__mdns/mdns.c:230-268 | for every name, n renamings give its root with the number n further on, counting from 1 without a number (section 9 of RFC 6762) |
| Mangle.PlainRenamings | managed_components/espressif__mdns/mdns.c:230-268 | a name without a dash gets "-2" and then "-3" |
| Mangle.RenamingsDiffer | managed_components/espressif__mdns/mdns.c:230-268 | all renamings differ from the original and from each other |
| Mangle.MangledFits | managed_components/espressif__mdns/mdns.c:249-266 | the new name with its NUL fits the allocated buffer, for every name |
| SlotStore.SanitizeIdempotent | main/ntrip_slots.c:188-211 | sanitising twice is sanitising once |
| SlotStore.StepKeepsInv | main/ntrip_slots.c:323-362 | whatever storage does, a loaded table holds only sanitised slots |
| SlotStore.OkMutationAgrees | main/ntrip_slots.c:429-484 | after a set or sync that returns OK, loading the blob gives exactly the table |
| SlotStore.OkReadAgrees | main/ntrip_slots.c:396-450 | after an OK init or get they agree iff it loaded the table or they agreed before |
| SlotStore.OkRunAgrees | main/ntrip_slots.c:396-484 | a run of OK operations, reboots and key edits ends in agreement, whatever was stored at first |
| SlotStore.MutationAgreesIff | main/ntrip_slots.c:429-484 | whatever a set or sync returns, blob and table agree afterwards iff the save landed or nothing was to change |
| SlotStore.RunAgreesIff | main/ntrip_slots.c:396-484 | after any run with any failures a loaded table agrees with the blob iff it is the table that landed last |
| SlotStore.GetReturnsStoredIff | main/ntrip_slots.c:441-450 | after any such run an OK get returns what a reboot would bring back iff the slot is as it landed last |
| SlotStore.GetOkAfterFailedSave | main/ntrip_slots.c:441-464 | an OK get that returns a slot the blob does not hold |
| SlotStore.OkSetSyncsKeys | main/ntrip_slots.c:364-394 | after an OK set the older keys say what slots 0 and 1 say on the six shared fields |
| SlotStore.ReadBackKeepsShared | main/ntrip_slots.c:285-310 | reading back from such keys keeps the six fields; TLS, name and version fall back to the defaults |
| SlotStore.SyncAfterSetKeepsShared | main/ntrip_slots.c:429-439 | a sync after an OK set keeps the six shared fields and leaves slots 2 to 4 untouched |
| SlotStore.KeysRoundTrip | main/ntrip_slots.c:270-310 | keys whose texts fit survive being read into a slot |
| SlotStore.Store.SetConfig | main/ntrip_slots.c:452-466 | an OK set stores every setting as given, a zero port as 2101, texts cut to their fields, a slot without a name as the default; a well-formed slot is stored as it is; the rest of a loaded table stays |
| SlotStore.Store.SetAll | main/ntrip_slots.c:468-484 | the same for all five slots |
| SlotStore.Store.SyncFromLegacy | main/ntrip_slots.c:429-439 | the first two slots are read from the keys and the table is saved |
| SlotStore.Store.Load | main/ntrip_slots.c:323-362 | a missing blob gives defaults or a migration, a short or wrongly headed one a migration, an over-long one the read error, an intact one its sanitised slots |
| SlotStore.SetConfigStores | main/ntrip_slots.c:452-466 | what an OK set_config stores, besides the loaded table |
| SlotStore.SetAllStores | main/ntrip_slots.c:468-484 | what an OK set_all stores |
| SlotStore.SetSurvivesReboot | main/ntrip_slots.c:441-484 | after an OK set the next get returns that slot, and so does the first one after a reboot if storage can be read |
| SlotStore.LoadBringsTable | main/ntrip_slots.c:323-362 | an intact table is loaded, each slot as it is if it needs no correction |
| SlotStore.LoadBringsKeys | main/ntrip_slots.c:323-362 | without an intact table slots 0 and 1 come from their older keys if the table is damaged or the keys are in use, and the rest by default |
| SlotStore.DefaultIs | main/ntrip_slots.c:159-174 | the default slot: off, port 2101, version 2.0, a name of its own, nothing else |

## Left out

- Sockets, name resolution, HTTP text, drivers, NVS and FreeRTOS internals: environment steps with every outcome, or abstract values.
- Slot runtime: back-off waits, statistics in bytes per second, the self-test, the fake RTCM source and logging.
- Slot runtime: the packet limit of the disconnecting mock; under it a write may succeed or fail at any time.
- Slot runtime: counters are unbounded; the 32-bit wrap of byte, packet and drop counts is not modelled.
- SlotRuntime.FanoutIsRun: the loop methods run without interference; what may happen between their iterations is in the protocol.
- Qos.ClassifyMonotone: about the level as a function of its inputs; drops missed because a drop counter was reset between passes are not counted.
- Qos.FakeStopsIff: as far as the passes go; a new start of the fake source, which clears the flag, is not modelled.
- SlotTheorems.AdmissionAtPassEnd: bounds the wanted slots; stopped tasks may still be winding down, so running tasks are not bounded.
- Receiver: the meaning of NMEA, Unicore and UBX payloads, floating point, running averages, status texts.
- CommandQueue.AppliedOnlyIfDrained: one profile application at a time; whether a reply matches the expected token is an input of the step.
- SatelliteTable.LeastRecentlySeenCache: needs a strictly increasing clock, as the eviction rule does; ages are not modelled.
- TxQueue.InsertKeepsOrder: the code sorts by the raw 32-bit send time, so around the wrap-around sorted is not chronological.
- Probing: packet contents; which packets become empty and are unlinked is left to the environment. Services are numbers.
- Probing.Responder.InitProbe: a probe list left over while not probing, which the code would append to, is taken as replaced.
- Probing: the action queue; a marked head may be handled at any time, which covers every order of actions.
- TxtRecord.ResultTxtCreate: failed allocations. Its arrays are lists; how many items they are sized for is stated beside it.
- TxtRecord: entries whose key pointer is null, which the encoder skips.
- Fqdn.Name.ReadFqdn: the second byte of a pointer at the packet's end is read from one byte of padding; bytes of a field behind its NUL are not modelled.
- mDNS: the name compressor, browse and query results, TXT and address collisions.
- Mangle.RenamingCounts: up to INT_MAX; beyond, the int increment is taken to wrap.
- SlotStore: keys always read back; a failed allocation while reading them is not modelled. The status report is left out.
- `main/retry.c`, `main/uart.c`, `main/network_state.c`, `main/config.c`, `main/protocol/nmea.c`, the console commands and the web pages are not modelled.
