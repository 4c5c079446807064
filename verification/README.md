# Verified models of the device tree's HAL state machines

Dafny 4.11 models of the six pieces of this Android device tree that hold real state, with proofs of
what they keep over every input, run or interleaving. `dafny verify dfyconfig.toml` checks all of it.

1. **Bluetooth firmware-init handshake** (`HciPackets`, `FwInit`, `FwInitInvariant`,
   `FwInitTheorems`, `FwInitBytes`, `FwInitActions`, `FwInitStale`, `FwInitRuns`;
   `hal/bluedroid/radiomod.c`, `radiomgr.c`, `bt_mtk.h`). The worker walking a preload script, the
   stack's completion callback and the caller (start, terminate, join) are atomic steps that interleave
   freely, with spurious wake-ups. Each step is the code between two points where the mutex is taken or
   released, or another thread can look. It speaks the HCI command/event exchange of the Bluetooth Core
   Specification 5.2, Vol 4 Part E, sections 5.4.1, 5.4.4, 7.4.6 and 7.7.14.
   Environment: at most one completion per transmitted command, never before its transmission, and
   long enough to hold what the callbacks read. The static globals an earlier run leaves behind are
   inputs of a run, because BT_InitDevice does not reset them.
2. **Wi-Fi tables and start/cancel paths** (`WifiTables`, `WifiPaths`, `WifiHal`, `WifiCalls`;
   `hal/wifi_hal`). Two bounded arrays with counts, command objects with `mRefs`, and every start
   and cancel path, proved against sequences and lists of table operations.
3. **Wi-Fi command life cycle** (`WifiLifecycle`, `WifiLifecycleProofs`, `WifiLifecycleTheorems`,
   `WifiEvents`). One API thread and one event loop interleave over the tables and reference counts;
   the steps use the same operation lists the methods of part 2 are proved against. The client discipline is a
   predicate on actions: new ids, no handler key shared with a command in the table, and no id of an
   RTT command whose completion is in flight. The third clause is needed: without it a late completion
   deletes an innocent command, and exactly then.
4. **Result accumulation** (`ScanResults`, `RttResults`; `gscan.cpp`, `rtt.cpp`).
5. **Log-line splitter** (`LogSplitter`; `hal/md_ctrl/md_ctrl.cpp`).
6. **LED arbiter** (`Lights`; `hal/liblights/lights.c`) and **`[name]:value` scanner** (`KcfgParser`;
   `hal/ccci_lib/ccci_lib.c`).

`Base` holds the few types and functions they share. Methods carry the source's loops over arrays and
fields and are tied by `ensures` to functions on values; the properties are proved of those functions.
What goes over a wire or into a file is also stated in plain bytes and numbers, without those functions:
packets, opcodes, events and NVRAM fields in `HciPackets` and `FwInitBytes`, handler keys in `WifiPaths`,
attribute types in `ScanResults` and `RttResults`, colours in `Lights`, the grammar in `KcfgParser`.

What the proofs show beyond the expected:

- A terminate can be lost exactly when it lands while a command is being handed over, or while its
  completion can still store SUCCESS over the request with commands left to send
  (`FwInitTheorems.TerminateLostIff`); runs of both kinds exist (`FwInitRuns.TerminateCanBeLost`,
  `FwInitRuns.TerminateCanBeLostInWait`).
- The comment at `hal/bluedroid/radiomod.c:1197` says the status is restored for the next time. A
  terminate that lands in the wait never stays; one that lands while a command is being handed over stays
  exactly when that command is never transmitted; any other stays, and the next run then sends nothing and
  fails (`FwInitTheorems.TerminateLeftBehindIff`, `FwInitRuns.TerminateCanBeLeftBehind`,
  `FwInitTheorems.StickyTerminate`).
- A run stopped while it waits ends with its command outstanding, and nothing ties a completion to a run:
  the late answer, or its good verdict, can fake the next run's SUCCESS, and nothing else can
  (`FwInitRuns.SuccessFakedIff`, `FwInitRuns.SecondRunFakesSuccess`).
- A failing start can remove another command's handlers: the exact condition is
  `WifiPaths.FailedStartRestoresIff`.
- A full-scan and a scan command share a handler key. Cancelling the later one leaves its handler in
  the table with a deleted command behind it: `WifiLifecycleTheorems.SharedKeyDanglesIff`.
- A late RTT completion takes the handler of a ranging request started after a cancel, whose results then
  never arrive: `WifiLifecycleTheorems.LateCompletionStealsIff`.
- A lit battery LED that was already blinking keeps its old blink times (`Lights.BatteryTimesIff`,
  `Lights.OldTimesKept`).
- In any group, a scan's `num_results` comes out negative exactly when the count last declared before it
  is 2^31 or more (`ScanResults.ResultCount`, `ScanResults.HugeCountIsNegative`).

## Model

| member | source | states |
|---|---|---|
| HciPackets.Build | hal/bluedroid/radiomod.c:176-991 | a builder's advancing writes produce exactly the packet, touch nothing beyond it, and `len` is the number of bytes written |
| HciPackets.PacketWellFormed | hal/bluedroid/radiomod.c:176-991 | for every builder, chip and NVRAM content the bytes decode as an HCI command packet: little-endian opcode, parameter length `len - 3`, at most 251 bytes |
| HciPackets.ShortPackets | hal/bluedroid/radiomod.c:176-930 | every byte of the packets without parameters and of the one-parameter packets 0xFC1B and 0x0C0A |
| HciPackets.DebugPackets | hal/bluedroid/radiomod.c:932-991 | every byte of the two debug packets |
| HciPackets.EncryptionPackets | hal/bluedroid/radiomod.c:345-412 | every byte of 0xFC75 and 0xFC76 |
| HciPackets.ClockPackets | hal/bluedroid/radiomod.c:676-739 | every byte of the oscillator and low-power-oscillator packets |
| HciPackets.PtaPackets | hal/bluedroid/radiomod.c:741-804 | every byte of the two PTA packets |
| HciPackets.InternalPtaPackets | hal/bluedroid/radiomod.c:806-907 | every byte of the two 0xFCFB packets and of 0xFCB0 |
| HciPackets.AddressPacket | hal/bluedroid/radiomod.c:286-297 | 0xFC1A carries the address, last byte first |
| HciPackets.VoicePackets | hal/bluedroid/radiomod.c:440-494 | 0x0C26, 0xFC72 and 0xFC7D carry the voice, codec and feature fields, byte by byte |
| HciPackets.SleepPacket | hal/bluedroid/radiomod.c:585-615 | 0xFC7A carries the seven sleep bytes in order |
| HciPackets.AdjustPacket | hal/bluedroid/radiomod.c:617-647 | 0xFC22 carries the six coexistence bytes in order |
| HciPackets.RadioPacket | hal/bluedroid/radiomod.c:496-583 | 0xFC79 and 0xFC93 carry six and three bytes on every chip but 0x6632 |
| HciPackets.RadioPacket6632 | hal/bluedroid/radiomod.c:496-541 | on chip 0x6632 0xFC79 carries the radio bytes and the two extended ones |
| HciPackets.PowerPacket6632 | hal/bluedroid/radiomod.c:543-583 | on chip 0x6632 0xFC93 carries the power bytes and the three extended ones |
| HciPackets.AddressRoundTrip | hal/bluedroid/radiomod.c:199-316 | an address stored from a Read BD_ADDR return goes out in 0xFC1A byte for byte as it came |
| FwInit.ScriptsAreWellShaped | hal/bluedroid/radiomod.c:104-172 | every chip's preload script has the shape the proofs rely on, and the unknown chip alone has none |
| FwInitInvariant.ReachInv | hal/bluedroid/radiomod.c:998-1218 | the handshake invariant (place, status, outstanding command, history, report) holds in every reachable state |
| FwInitTheorems.OneOutstandingCommand | hal/bluedroid/radiomod.c:998-1203 | at most one HCI command is outstanding, and `wOpCode` is its opcode whenever a completion is checked |
| FwInitTheorems.NoLostWakeup | hal/bluedroid/radiomod.c:1158-1203 | a worker blocked in the wait has status CMD_PENDING and its completion still to come |
| FwInitTheorems.ReportedOnce | hal/bluedroid/radiomod.c:1204-1218 | `fwcfg_cb` is called exactly once when callbacks are set, at the end of the run |
| FwInitTheorems.SuccessMeansPlanDone | hal/bluedroid/radiomod.c:1064-1148 | SUCCESS only if the commands sent are the script from the start index, in order, less disabled debug entries, each answered by Command Complete with its opcode and status 0 |
| FwInitBytes.OpcodesOnTheWire | hal/bluedroid/radiomod.c:104-172 | at any moment the opcodes in the packets sent are a prefix of the chip's list, written out by chip number, and all of it on SUCCESS; Read BD_ADDR comes first on a combo chip exactly when the address bytes are blank or an earlier run left that wish |
| FwInitBytes.VerdictInBytes | hal/bluedroid/radiomod.c:998-1035 | the verdict on an event and the status stored for it: success exactly when its code is 0x0E, its opcode bytes are the first two of the last packet sent and its status byte is 0 |
| FwInitBytes.StrayVerdict | hal/bluedroid/radiomod.c:199-248 | in any state the callback of Read BD_ADDR looks for the opcode bytes of 0x1009, every other for the opcode set last |
| FwInitBytes.AnswersOnTheWire | hal/bluedroid/radiomod.c:1014-1035 | after SUCCESS the answer to each packet repeats its first two bytes, with code 0x0E and status 0 |
| FwInitBytes.FieldsOnTheWire | hal/bluedroid/radiomod.c:440-674 | at any moment of a run each packet with an NVRAM field carries that field of the run's own record and nothing else |
| FwInitBytes.PacketsDetermineFields | hal/bluedroid/radiomod.c:440-674 | two runs with the same packets, one of them successful, agree on every NVRAM field the chip is sent |
| FwInitBytes.AddressOnTheWire | hal/bluedroid/radiomod.c:199-316 | every 0xFC1A packet of a run carries the run's address last byte first, the module's own where that was asked for; a blank one gets three random bytes, the first ending in binary 10, in a build that generates addresses |
| FwInitTheorems.GoodRunReportsSuccess | hal/bluedroid/radiomod.c:1127-1206 | conversely, all answers good, no allocation or transmit failure, no terminate: SUCCESS |
| FwInitActions.GoodActionsReportSuccess | hal/bluedroid/radiomod.c:1127-1206 | the same by the actions of the run: none of them a failed allocation, a failed transmission or a terminate |
| FwInitActions.EnvironmentIsFree | hal/bluedroid/radiomod.c:1047-1203 | in every reachable state failures, spurious wake-ups, events of any content, late verdicts and the caller's next step are possible |
| FwInitActions.NotifiesIffMarked | hal/bluedroid/radiomgr.c:89-105 | the caller terminates the worker exactly when the worker's exit did not come after it was marked as running |
| FwInitActions.QuietCleanup | hal/bluedroid/radiomgr.c:89-105 | a worker that is gone when the caller looks is told nothing, and the status stays as the run left it |
| FwInitTheorems.SentPacketsDecode | hal/bluedroid/radiomod.c:1127-1148 | every packet a run sends is well formed and carries its command's opcode |
| FwInitTheorems.EfuseAddressSentBack | hal/bluedroid/radiomod.c:199-316 | over every run of a combo chip, the eFUSE address read first goes back out as the second command, byte-identical unless it is blank and random addresses are built in |
| FwInitTheorems.WishLeftBehindIff | hal/bluedroid/radiomod.c:252-284 | a run that no buffer or transmit failure stopped leaves the wish for the module's address to the next exactly when it had that wish and its 0xFC1A was not sent |
| FwInitTheorems.TerminateLostIff | hal/bluedroid/radiomod.c:1028-1045 | some continuation sends a command after a terminate if and only if it lands in the hand-over of a command, or while its completion may still overwrite it with commands left |
| FwInitTheorems.TerminateNotPendingHonoured | hal/bluedroid/radiomod.c:1038-1045 | nothing is sent after a terminate that lands while no command is pending |
| FwInitTheorems.StickyTerminate | hal/bluedroid/radiomod.c:1127-1165 | a run that finds CMD_TERMINATE left over sends nothing, fails and leaves it for the next |
| FwInitTheorems.TerminateLeftBehindIff | hal/bluedroid/radiomod.c:1158-1200 | wherever a terminate lands, it is left behind at the end of the run exactly when it landed in the hand-over of a command that is never transmitted, or neither there nor in the wait |
| FwInitRuns.TerminateCanBeLost | hal/bluedroid/radiomod.c:1127-1165 | every live configuration has a run whose terminate lands in the hand-over of a command, with a command sent after it |
| FwInitRuns.TerminateCanBeLostInWait | hal/bluedroid/radiomod.c:1028-1045 | every live configuration of more than one command has a run whose terminate lands in the wait for a completion on air, with a command sent after it |
| FwInitRuns.TerminateCanBeLeftBehind | hal/bluedroid/radiomod.c:1127-1200 | every known chip has a run whose terminate is still there when the worker is done, and the run after it sends nothing and fails |
| FwInitRuns.NextRunSuccess | hal/bluedroid/radiomgr.c:60-105 | only a run told to terminate can end with a command outstanding, and the SUCCESS of the run after any other is as good as that of a first run |
| FwInitRuns.LeftoverReached | hal/bluedroid/radiomgr.c:89-105 | every live configuration has a run that is joined with its command on air and lets the next run work |
| FwInitRuns.SuccessFakedIff | hal/bluedroid/radiomod.c:998-1035 | with completions in order, SUCCESS can be reported although a command of the run got no Command Complete of its own with status 0, if and only if the run started with an earlier run's command whose answer or good verdict was still to come |
| FwInitStale.SuccessDespiteStaleFailure | hal/bluedroid/radiomod.c:1024-1035 | a bad verdict of an earlier run that is stored at any moment can spoil a run, but its SUCCESS still means the plan was done and answered well |
| FwInitRuns.SecondRunFakesSuccess | hal/bluedroid/radiomod.c:63-67 | two runs in a row that end so, from every live configuration |
| FwInitTheorems.WorkerNeverStuck | hal/bluedroid/radiomod.c:1047-1218 | if every command is answered, by any event, the worker or the completion it waits for can always take its step |
| FwInitTheorems.RunsEndJoined | hal/bluedroid/radiomgr.c:60-105 | a run that is over, but for spurious wake-ups, has the worker at its exit, joined by the caller, exactly one report when callbacks are set, and no completion outstanding |
| FwInitTheorems.RunsAreBounded | hal/bluedroid/radiomod.c:1047-1218 | the length of every run is bounded by the script length and its spurious wake-ups |
| WifiTables.DropQueue | hal/wifi_hal/common.cpp:129-150 | removal takes the oldest value of its key and changes no other key's values: each key is a FIFO queue |
| WifiTables.AddQueue | hal/wifi_hal/common.cpp:52-101 | registration appends to its key's queue, or changes nothing when the table is full |
| WifiTables.DropOfConcat | hal/wifi_hal/common.cpp:135-146 | removal is first-match: in a table with a tail it works on the front part when the key occurs there |
| WifiHal.MoveDown | hal/wifi_hal/common.cpp:142-143 | the memmove drops exactly one entry and keeps the order of the rest |
| WifiHal.HalInfo.RegisterHandler | hal/wifi_hal/common.cpp:52-75 | appends a plain handler, or fails unchanged at capacity |
| WifiHal.HalInfo.RegisterVendorHandler | hal/wifi_hal/common.cpp:77-101 | appends a vendor handler, or fails unchanged at capacity |
| WifiHal.HalInfo.UnregisterHandler | hal/wifi_hal/common.cpp:103-127 | removes the first handler of the command number, keeps the rest in order, refuses the vendor number |
| WifiHal.HalInfo.UnregisterVendorHandler | hal/wifi_hal/common.cpp:129-150 | removes the first handler of the vendor key, keeps the rest in order |
| WifiHal.HalInfo.RegisterCmd | hal/wifi_hal/common.cpp:153-173 | appends a command under its id, or fails unchanged at capacity |
| WifiHal.HalInfo.UnregisterCmd | hal/wifi_hal/common.cpp:175-198 | removes the first entry of the id and returns its command, NULL if there is none |
| WifiHal.HalInfo.GetCmd | hal/wifi_hal/common.cpp:200-214 | finds the first command of the id, NULL exactly when there is none |
| WifiHal.HalInfo.UnregisterCmdObject | hal/wifi_hal/common.cpp:216-229 | removes the first entry that holds the object, and nothing else |
| WifiHal.WifiCommand.AddRef | hal/wifi_hal/cpp_bindings.h:253-256 | one more reference |
| WifiHal.WifiCommand.ReleaseRef | hal/wifi_hal/cpp_bindings.h:258-265 | one less reference; the object is deleted exactly when none is left |
| WifiPaths.RegsInstall | hal/wifi_hal/gscan.cpp:636-638 | a start's registrations append one handler a key, as far as they fit |
| WifiPaths.BalancedRestoresIff | hal/wifi_hal/gscan.cpp:636-645 | register-then-unregister sequences restore the table, even one that fills up part-way, exactly when no key they unregister was there before |
| WifiPaths.FailedStartRestoresIff | hal/wifi_hal/gscan.cpp:599-650 | a start failing at any stage leaves the handler table as it was exactly when its error path unregisters nothing or none of its keys was registered |
| WifiPaths.StartInstalls | hal/wifi_hal/gscan.cpp:632-650 | a successful start adds the command's handlers after the others |
| WifiPaths.ScanOps | hal/wifi_hal/gscan.cpp:599-669 | the handler operations of a scan's start at every stage and of its cancel, in key numbers and order |
| WifiPaths.HotlistOps | hal/wifi_hal/gscan.cpp:1108-1160 | the same of a hotlist, with the unregistration before any registration |
| WifiPaths.SignificantChangeOps | hal/wifi_hal/gscan.cpp:1530-1580 | the same of significant change |
| WifiPaths.TwoStageOps | hal/wifi_hal/gscan.cpp:416-451 | the same of full scan results and of hotspot matching |
| WifiPaths.LateOps | hal/wifi_hal/rtt.cpp:460-496 | the same of ePNO and ranging, which register after their requests |
| WifiPaths.CancelUndoesStartIff | hal/wifi_hal/gscan.cpp:651-669 | a cancel undoes a successful start exactly when none of the keys was registered before it |
| WifiPaths.CancelLeavesHandlerIff | hal/wifi_hal/gscan.cpp:651-669 | after start and cancel a handler of the cancelled command remains exactly when another command's handler for one of its keys was there first |
| WifiPaths.CommandEntryRestoredIff | hal/wifi_hal/gscan.cpp:719-731 | the rollback by id restores the command table exactly when the id was not in it |
| WifiPaths.RequestRestoresIff | hal/wifi_hal/cpp_bindings.cpp:628-679 | requestEvent and requestVendorEvent leave the handler table as it was exactly when it was full, or nothing was registered under the key and the key can be unregistered |
| WifiCalls.StartScan | hal/wifi_hal/gscan.cpp:599-650 | ScanCommand::start for every outcome of its six stages: result and table |
| WifiCalls.StartFullScan | hal/wifi_hal/gscan.cpp:416-435 | FullScanResultsCommand::start for every outcome of its stages |
| WifiCalls.StartHotlist | hal/wifi_hal/gscan.cpp:1108-1143 | BssidHotlistCommand::start, with its unregistration before any registration |
| WifiCalls.StartEpno | hal/wifi_hal/gscan.cpp:1327-1346 | ePNOCommand::start, which registers only after its requests |
| WifiCalls.StartSignificantChange | hal/wifi_hal/gscan.cpp:1530-1563 | SignificantWifiChangeCommand::start for every outcome of its stages |
| WifiCalls.StartAnqpo | hal/wifi_hal/gscan.cpp:1762-1781 | AnqpoConfigureCommand::start for every outcome of its stages |
| WifiCalls.StartRtt | hal/wifi_hal/rtt.cpp:460-478 | RttCommand::start, which registers after its requests |
| WifiCalls.StartCommand | hal/wifi_hal/gscan.cpp:707-731 | the API call around start: result, both tables and the new object's fate on every exit, with the exact conditions under which a failure leaves no trace |
| WifiCalls.CancelById | hal/wifi_hal/common.cpp:231-244 | takes the command out of the table, removes its handlers, drops the table's reference; an unknown id changes nothing |
| WifiCalls.CancelByDummy | hal/wifi_hal/gscan.cpp:733-751 | cancel with id -1: the handlers of the class go, the command table stays, the throw-away object is deleted |
| WifiCalls.RequestEvent | hal/wifi_hal/cpp_bindings.cpp:628-655 | registration, three steps that stop at the first failure, unregistration on every exit |
| WifiCalls.RequestVendorEvent | hal/wifi_hal/cpp_bindings.cpp:657-679 | the same with a vendor key |
| WifiLifecycleProofs.StepInv | hal/wifi_hal/rtt.cpp:608-656 | every enabled, disciplined step of API thread and event loop keeps the life-cycle invariant |
| WifiLifecycleTheorems.HandlersPointToLiveCommands | hal/wifi_hal/common.cpp:77-150 | over every interleaving each handler's argument is a live command of the right class, in the command table under its id unless a cancel is about to remove that very handler |
| WifiLifecycleTheorems.TableCommandsLive | hal/wifi_hal/common.cpp:153-229 | every table entry is a live command with that id, and ids and commands are distinct |
| WifiLifecycleTheorems.NoUseAfterDelete | hal/wifi_hal/cpp_bindings.cpp:696-709 | no start, cancel, event handler, signal or release touches a deleted command |
| WifiLifecycleTheorems.AccessesLive | hal/wifi_hal/wifi_hal.cpp:488-548 | whatever can happen next in a reachable state reads, writes or releases live objects only |
| WifiLifecycleTheorems.FaultsIff | hal/wifi_hal/cpp_bindings.h:253-265 | the fault flag of every step is set exactly by an access to an object that is gone |
| WifiLifecycleTheorems.RefsAreOwnersAndDispatches | hal/wifi_hal/cpp_bindings.h:253-265 | `mRefs` is the number of owners plus the dispatch in flight |
| WifiLifecycleTheorems.DeletedAtMostOnce | hal/wifi_hal/cpp_bindings.h:258-265 | each command ever made is live or deleted, never both, none deleted twice |
| WifiLifecycleTheorems.AtRestOnlyTheTable | hal/wifi_hal/wifi_hal.cpp:488-548 | with no call and no dispatch under way the live commands are exactly those in the table, one reference each |
| WifiLifecycleTheorems.TablesBounded | hal/wifi_hal/common.cpp:52-173 | both tables stay within their bounds over all runs, disciplined or not |
| WifiLifecycleTheorems.StartAlone | hal/wifi_hal/gscan.cpp:707-731 | the interleaved machine's start, undisturbed, is the start path of part 2 |
| WifiLifecycleTheorems.FailedStartAlone | hal/wifi_hal/gscan.cpp:719-731 | an undisturbed failing start deletes the command once and leaves the error path's tables |
| WifiLifecycleTheorems.CancelAlone | hal/wifi_hal/common.cpp:231-244 | the machine's cancel, undisturbed, is the cancel path of part 2 |
| WifiLifecycleTheorems.UnknownCancelAlone | hal/wifi_hal/common.cpp:231-244 | a cancel of an id that is not in the table changes nothing |
| WifiLifecycleTheorems.DummyAlone | hal/wifi_hal/gscan.cpp:733-751 | a cancel by a throw-away object, undisturbed: its class's keys are unregistered, it is deleted, no command leaves the table |
| WifiLifecycleTheorems.FullStartAlone | hal/wifi_hal/gscan.cpp:711-718 | a start on a full command table deletes the new object and changes nothing else |
| WifiLifecycleTheorems.AnyClassStarts | hal/wifi_hal/gscan.cpp:707-731 | the discipline forbids no start, of any class, while the command table is empty |
| WifiEvents.EventAlone | hal/wifi_hal/wifi_hal.cpp:512-541 | an undisturbed event, except one that completes ranging, leaves tables, objects and counts as they were |
| WifiEvents.CompletedEventAlone | hal/wifi_hal/rtt.cpp:608-619 | the event that completes ranging takes its handler, its table entry and the object, and changes nothing else |
| WifiEvents.CommandsKeepHandlers | hal/wifi_hal/gscan.cpp:632-650 | over every disciplined run with room, a command in the table whose start is over has its handler for each key of its class, unless a throw-away cancel unregisters that key or, for the key of ranging, a completing event came |
| WifiEvents.HandlersAreTheCommands | hal/wifi_hal/gscan.cpp:632-669 | so between calls the handlers under a key are exactly those of the commands in the table with that key |
| WifiLifecycleTheorems.SharedKeyDanglesIff | hal/wifi_hal/gscan.cpp:425-451 | starting and cancelling a command leaves a handler of the deleted object, which the next event of that key touches, exactly when one of its keys was taken |
| WifiLifecycleTheorems.FullScanTakesScanKey | hal/wifi_hal/gscan.cpp:636-638 | a disciplined run reaches a state in which a scan's key is taken |
| WifiLifecycleTheorems.LateCompletionDeletesIff | hal/wifi_hal/rtt.cpp:608-619 | an RTT completion in flight deletes a command started meanwhile exactly when that has its id |
| WifiLifecycleTheorems.LateCompletionStealsIff | hal/wifi_hal/rtt.cpp:608-609 | an RTT completion in flight takes the only handler of a ranging command started meanwhile, whatever its id, exactly when no ranging handler was there before |
| WifiLifecycleTheorems.LateCompletionReached | hal/wifi_hal/rtt.cpp:608-656 | a disciplined run reaches a state in which such an id and the ranging handler key are free and the completion still to come |
| ScanResults.GetScanResults.Store | hal/wifi_hal/gscan.cpp:975-1000 | one attribute's records fill the next free slot and no other |
| ScanResults.GetScanResults.HandleGroup | hal/wifi_hal/gscan.cpp:955-1004 | the inner iterator: the caller's array holds the first mMax of all scans decoded so far |
| ScanResults.GetScanResults.HandleResponse | hal/wifi_hal/gscan.cpp:926-1013 | the same over a whole reply, with the completion flag of its last flag attribute |
| ScanResults.GetScanResults.HandleReplies | hal/wifi_hal/gscan.cpp:926-1013 | the same over all replies of a request; the slots already filled keep their content |
| ScanResults.GetScanResults.Execute | hal/wifi_hal/gscan.cpp:889-924 | at most 10 requests; the result is that of the last, its creation's if that failed, and all before it succeeded, brought something and did not set the flag; every request was made with room left; without an error the last brought nothing or set the flag, or room or requests ran out; the array holds the first mMax scans of all replies concatenated; the caller's count is their number on success and untouched on an error |
| ScanResults.RequestsShrink | hal/wifi_hal/gscan.cpp:893-917 | what each request of a run asks for is positive and less than what the one before asked for |
| ScanResults.CountFollowsDeclared | hal/wifi_hal/gscan.cpp:961-977 | in every group the running count is negative exactly when the declared one is, and never exceeds a declared one that is not |
| ScanResults.ResultCount | hal/wifi_hal/gscan.cpp:955-1000 | a result attribute at any place of any group adds nothing when the count is 0, and otherwise one scan: the last id, flags and buckets before it, the first min(count, records, maximum) records; num_results is negative, with no records, exactly when the count last declared is 2^31 or more |
| ScanResults.OtherAttributes | hal/wifi_hal/gscan.cpp:955-1010 | attributes of other types add no scan, and only types 30 to 36 of a reply are groups |
| ScanResults.CompletionFlag | hal/wifi_hal/gscan.cpp:948-953 | the flag a reply leaves is the lowest byte of its last attribute of type 21, or what it was |
| ScanResults.RepliesAsOne | hal/wifi_hal/gscan.cpp:926-953 | all replies of a request come to the same as one reply with the attributes of those that are vendor messages with data: the same scans in order, the same flag |
| ScanResults.HugeCountIsNegative | hal/wifi_hal/gscan.cpp:968-977 | a group whose scan comes out negative, with no record copied |
| ScanResults.GroupCounts | hal/wifi_hal/gscan.cpp:961-1000 | with declared counts below 2^31 every scan's num_results is the number of records copied, at most MAX_AP_CACHE_PER_SCAN |
| ScanResults.RoundTrip | hal/wifi_hal/gscan.cpp:948-1010 | a reply with one group per scan decodes to those scans in order, but scans without records are lost |
| RttResults.RttCommand.HandleTarget | hal/wifi_hal/rtt.cpp:532-604 | a target's results are appended up to the first failed allocation, which sets the completion flag |
| RttResults.RttCommand.HandleEvent | hal/wifi_hal/rtt.cpp:521-621 | an event is the fold of its attributes; a completed one makes one callback with everything pending and frees each buffer once, after it; totalCnt equals currentIdx throughout |
| RttResults.GatherCollects | hal/wifi_hal/rtt.cpp:528-607 | with allocations succeeding an event collects exactly its RESULT attributes in order and leaves its last completion flag |
| RttResults.OneDelivery | hal/wifi_hal/rtt.cpp:521-621 | the callback gets exactly the RESULT attributes of all events since the start, in order of arrival, at the first completing event and not before |
| RttResults.FailedAllocation | hal/wifi_hal/rtt.cpp:550-556 | a failed allocation loses the rest of its target's results and sets the flag |
| LogSplitter.Scan | hal/md_ctrl/md_ctrl.cpp:79-88 | the in-place scan from the start of the buffer follows the byte-at-a-time splitter |
| LogSplitter.ReadAndLog | hal/md_ctrl/md_ctrl.cpp:74-103 | one read, scan and flush or memmove keep the loop invariant: left-overs start at 0, are shorter than 4095 bytes and hold no LF or CR |
| LogSplitter.Parent | hal/md_ctrl/md_ctrl.cpp:53-133 | for every output and every way reads divide it, what the reads take is read and the do_log_line calls are those of the byte-at-a-time splitter on it, with the final flush; reads that go on log the whole output |
| LogSplitter.AllConsumed | hal/md_ctrl/md_ctrl.cpp:75-103 | every read has room, so reads that find something take at least a byte each until nothing is left |
| LogSplitter.RunCuts | hal/md_ctrl/md_ctrl.cpp:78-103 | nothing is lost, added or reordered: the pieces, with their line feeds, and what is pending rejoin to the output with CR mapped to NUL |
| LogSplitter.CutUnique | hal/md_ctrl/md_ctrl.cpp:78-103 | there is only one way to cut an output into shorter lines and full buffers |
| LogSplitter.LogIsTheCut | hal/md_ctrl/md_ctrl.cpp:129-133 | so the calls are determined: the unique cut, and what is left over at the end |
| Lights.LightsLib.BlinkLed | hal/liblights/lights.c:217-347 | blink_red, blink_green and blink_blue: the writes, skipped when the cached status is the same |
| Lights.LightsLib.SetSpeakerLight | hal/liblights/lights.c:418-477 | the order of switching off and on for each colour and alpha |
| Lights.LightsLib.SetLightBattery | hal/liblights/lights.c:490-502 | the new state after a battery request |
| Lights.LightsLib.SetLightNotifications | hal/liblights/lights.c:504-518 | the new state after a notification request |
| Lights.SpeakerShows | hal/liblights/lights.c:418-477 | after a request each LED is as the uncached arbiter shows it; times are written unless it was blinking; a request already shown writes nothing |
| Lights.RunRefines | hal/liblights/lights.c:479-518 | over any run from dark LEDs: every LED's mode is the uncached arbiter's on the latest pair, the cache agrees with the files, at every single write at most one LED is lit, and with the battery unlit a blinking LED has the notification's times |
| Lights.ColourBytes | hal/liblights/lights.c:446-455 | a colour is alpha, red, green and blue, highest byte first, lit when the last three are not all 0 |
| Lights.LedsByBytes | hal/liblights/lights.c:418-518 | after any run from dark LEDs each of the three LEDs is on, blinking or off by the four colour bytes of the latest battery request, or of the notification when that is unlit |
| Lights.FilesAfterRun | hal/liblights/lights.c:230-253 | after any run a dark LED has brightness 0 and no trigger, a steady one brightness 255 and no trigger, a blinking one the timer trigger |
| Lights.RunOrderly | hal/liblights/lights.c:230-253 | at every single write of any run brightness is 0 or 255 and delay files change only under the timer trigger that brings them into being |
| Lights.BatteryTimesIff | hal/liblights/lights.c:230-253 | a blinking battery request gets its own times exactly when the LED was not blinking before or blinked at those times |
| Lights.OldTimesKept | hal/liblights/lights.c:230-253 | a run after which a lit battery LED blinks at the notification's old times |
| Lights.LitBatteryMasksNotification | hal/liblights/lights.c:479-518 | while the battery is lit a notification changes no file |
| KcfgParser.Snprintf | hal/ccci_lib/ccci_lib.c:114 | copies up to size - 1 bytes of the C string and a NUL, nothing when size is 0 |
| KcfgParser.ParseInfo | hal/ccci_lib/ccci_lib.c:60-124 | the five-state loop finds what the record parser finds: 0 and the first matching record's value, or -1 with `val` untouched |
| KcfgParser.OutsideItems | hal/ccci_lib/ccci_lib.c:71-76 | before an item `[` starts one and any other byte is skipped |
| KcfgParser.NameGrammar | hal/ccci_lib/ccci_lib.c:78-98 | what ends a name: a line end gives the item up, `]` without a colon too and takes the byte after it along, the end of the text finds nothing, 32 bytes overrun the buffer |
| KcfgParser.ValueGrammar | hal/ccci_lib/ccci_lib.c:92-121 | what ends a value: a line end completes the record, the end of the text finds nothing, 32 bytes overrun the buffer |
| KcfgParser.PrintedHere | hal/ccci_lib/ccci_lib.c:70-113 | a printed record is cut where it was put together, wherever it stands |
| KcfgParser.RoundTrip | hal/ccci_lib/ccci_lib.c:60-124 | for records printed with LF, CR or CRLF the value found is that of the first record with the name, and nothing if there is none |
| KcfgParser.ScannedValue | hal/ccci_lib/ccci_lib.c:111-117 | `val` then holds the value cut to size - 1 bytes |

## Left out

- FwInit: modelled on values, as interleaved atomic steps, because two threads and a callback share
  the globals; the code between the mutex operations of one step is not interrupted in the model.
- FwInit: more than one command of earlier runs outstanding at once, destroying the mutex while it is
  held, the NVRAM file write and the buffer freed or leaked on each path; property reads give the same answer
  throughout a run; random bytes are inputs. The theorems of FwInitTheorems are about runs that start with
  nothing outstanding; FwInitRuns says what changes when a run does not.
- HciPackets: the bytes of an event shorter than the callbacks read.
- WifiLifecycle: more than one API thread at a time, the clean-up at HAL exit, and commands started by
  `wifi_logger.cpp` and the RSSI monitor; the command table has no lock in the source, so its accesses
  are single steps. `new` does not fail, and addresses are not reused.
- WifiLifecycle: a command of one class completing for another id than its own; only RTT completes
  itself.
- WifiHal: `cb_func`, which is event_handler at every call in the repository. The numbers of
  NL80211_CMD_VENDOR and of the error codes come from headers that are not part of this model.
- WifiCalls.Start: what the requests contain; each create or exchange is an input that is 0 or negative.
- ScanResults: the byte layout of attributes and records and their conversion. The source divides a
  payload's length by the size of wifi_scan_result but reads records of type wifi_gscan_result_t; the model
  has one sequence of records for both, so it does not show what happens if the sizes differ.
- ScanResults: MAX_AP_CACHE_PER_SCAN is a parameter, since its header is not part of this model. The
  integer and array readings of a payload are fields of the attribute.
- RttResults: the LCI and LCR pointers set inside a buffer; an event without vendor data, and more than
  1024 results before completion, are excluded by precondition.
- LogSplitter: poll, waitpid and negative results of read; the exit-status line logged at the end.
- Lights: the trackball and backlight files, and the wait for the delay files to appear; writes succeed.
  Brightness 0 clearing the trigger is the kernel's behaviour and an assumption.
- KcfgParser.ParseInfo: names and values over 31 bytes are excluded by precondition, for those fields
  that are read before the match; a negative size is not modelled.
- Sysfs, UART, sockets, properties and clocks everywhere: their results are inputs.
- `hal/power`, `hal/sensor`, `link_layer_stats.cpp`, `wifi_offload.cpp`, `bt_drv.c`, `mtk.c`, headers
  and symbol shims: they would add one-branch members only.
