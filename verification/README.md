# A verified model of the VDI backup client

The repository is a C++ client for SQL Server's Virtual Device Interface. It connects to a device
set, runs a command loop that takes backup chunks from the server, writes them to a sink and
acknowledges them, and reports metrics. This project models that session in Dafny and proves what
the repository promises about it.

## How it is modelled

* **Objects and values.** Every C++ class whose methods update its fields is a Dafny class with
  those fields and methods (`FileSink`, `Metrics`, `BufferPool`, `FaultInjector`, `Timer`,
  `VdiClient`). Each method is proved equal to a function on a value (`Sink`, `Counters`,
  `Injector`, `Session`), and the laws are proved about those functions, for every run.
* **The environment.** COM, the server, the file system and the clock answer arbitrarily. Status
  codes come as arguments of the call that receives them. The server's side of a run is a finite
  script of replies, after which `GetCommand` reports `VD_E_ABORT`. That last reply is never reached
  when the script ends the loop itself (`Polling.RestIsIgnored`), and as scripts of every length are
  covered, so is every prefix of a run that would never end. `WriteFile` answers any success flag
  with any byte count. The clock shows any 64-bit readings; results that need it not to go back say so.
* **The trace.** A session records every call it makes on its environment. The protocol rules
  (`ProtocolRules.Permitted`) and the books (`Ledgers.Entered`) are read off that trace alone, so
  they are independent of the functions that produced it. The disk is not a field either: it is
  what the logged `WriteFile` calls left behind.
* **Numbers.** 64-bit counters, differences and sums wrap as in C++, and the cast of a block length
  to a `DWORD` is explicit. The write buffer's capacity is any number from 1 to 2^32 - 1 (1 MiB in the
  program). Percentile ranks are exact reals.

| file | contents |
|---|---|
| `words.dfy`, `vdi_protocol.dfy` | machine words; commands, status codes, dispatch and validation |
| `sink_model.dfy`, `sink_laws.dfy`, `file_sink.dfy` | the write-combining file sink: value, laws, class |
| `metrics.dfy`, `percentile.dfy`, `min_max_race.dfy` | counters and their class; order statistics; concurrent minimum and maximum |
| `buffer_pool.dfy`, `fault_injector.dfy`, `timer.dfy` | the small parts the loop drives |
| `session.dfy`, `turn_facts.dfy` | the session as a value: one turn, the loop, the public calls |
| `protocol_rules.dfy`, `lifetime_rules.dfy`, `completion.dfy` | protocol discipline, ownership, the state machine, and when every command is completed |
| `ledger.dfy`, `delivery.dfy`, `fault_run.dfy` | accounting and end-to-end delivery; injected faults |
| `service.dfy` | when a command is served and the loop goes on; that a backup in good order succeeds |
| `run_timing.dfy`, `stall_detector.dfy`, `polling.dfy` | timings; stall warnings; round robin, devices, how a run ends |
| `vdi_client.dfy`, `backup_program.dfy` | the client object, method by method; the program that drives it |
| `witnesses.dfy` | concrete runs at which a documented property fails |

## Where the code differs from its documentation

The model follows the code.

* `VDC_Flush` is acknowledged without touching the sink, although `src/vdi_protocol.cpp:81-84` leaves
  it to the loop. `Delivery.FlushCommandLeavesBuffer` says when the data is nevertheless on disk;
  `Witnesses.FlushLeavesDataOffDisk` is a run where it is not.
* `flush_buffer` ignores what `WriteFile` answers (`src/file_sink.cpp:99-103`), so a backup can end
  cleanly with bytes missing. `Delivery.CleanEndIsComplete` gives the exact condition, which is the
  check that is missing there; `Witnesses.CleanEndCanLoseData` is such a run.
* "Each command must be completed exactly once" (`docs/vdi-flow.md:59`):
  `Completion.LifetimeCompletesAllIff` says of every lifetime that it holds if and only if no
  VDC_Close command was handed out and every write was stored;
  `Witnesses.CloseStaysUncompleted` is a run where it fails.
* The sink is flushed before devices are released (`docs/operational-behavior.md:141`) exactly when
  the server ends the session: `Polling.FlushPrecedesRelease`.
* A failed `OpenDevice` leaves the devices opened before it unreleased
  (`src/vdi_client.cpp:236-241`): `LifetimeRules.FailedOpeningLoses`,
  `Witnesses.FirstDeviceIsNeverReleased`.
* A stall warning does not mean that no byte arrived for a minute
  (`docs/operational-behavior.md:168-171`): `StallDetector.TimeoutWarnsIff`,
  `StallDetector.FirstRunWarnsByTimeAlone`, `Witnesses.WarningDespiteProgress`, and for a loop entered
  again `StallDetector.ReentryMissesOneWindow`.
* A failed run is not closed by `process_commands` (`docs/operational-behavior.md:281` expects
  CLOSED): `Polling.RunPollsInTurn`. The program exits 0 after one:
  `BackupProgram.FailedRunExitsZero`.
* Armed with N, the fault injector fires at the N-th completion, not at the one after it
  (`docs/operational-behavior.md:270`): `FaultInjectors.FiresFromTheNth`.
* `percentile` with p = 0 returns the maximum: `Percentiles.PercentileZeroIsMaximum`.

## Model

| member | source | states |
|---|---|---|
| SinkModel.WriteStep | src/file_sink.cpp:47-81 | on every path a write hands over exactly its data, after what was there, and only when it returns true; a full file system refuses it only if the sink is not ready or the chunk has 4 GiB or more |
| SinkLaws.AcceptedIsCommittedPlusBuffer | src/file_sink.cpp:47-104 | over any writes and flushes and any WriteFile answers, the accepted bytes are the blocks the sink counts as written followed by its buffer, in order and without gaps |
| SinkLaws.BytesAreConserved | src/file_sink.cpp:57-104 | accepted bytes = accepted bytes on disk + buffered + dropped; one flush drops at most a buffer, a large chunk drops nothing |
| SinkLaws.FullWritesAppend | src/file_sink.cpp:35-104 | after any operations, if every WriteFile so far was full, the sink accepted every write and holds exactly the offered bytes in order; if the last flush is full too, after destruction they are the file |
| SinkLaws.FlushMovesOnly | src/file_sink.cpp:87-104 | a full flush leaves disk plus buffer unchanged, empties the buffer, and a second flush does nothing |
| SinkLaws.FullWriteAnswer | src/file_sink.cpp:57-69 | with full WriteFile calls a write is refused exactly when the sink is not ready or the length does not fit a DWORD |
| SinkLaws.LargeChunkGoesOut | src/file_sink.cpp:57-69 | a chunk of at least the capacity, the exact capacity included, is handed to WriteFile at once after the buffer, and the answer is exactly what that call took |
| SinkLaws.SmallChunkIsBuffered | src/file_sink.cpp:71-80 | a smaller chunk is accepted unseen and makes a WriteFile call, for the old buffer, exactly when it no longer fits |
| SinkLaws.LargeChunksGoDirect | src/file_sink.cpp:55-80 | over any operations and answers, the blocks sent directly are the offered chunks of at least the capacity, all of them and in order |
| SinkLaws.AmortisedCalls | src/file_sink.cpp:57-80 | WriteFile calls made by write, times the capacity, plus the buffer level, grow by at most twice the bytes offered |
| FileSinks.FileSink.constructor | src/file_sink.cpp:4-33 | an empty sink, ready only if path, file and allocation all worked |
| FileSinks.FileSink.FlushBuffer | src/file_sink.cpp:94-104 | the in-place buffer drains as the value does, whatever WriteFile answers |
| FileSinks.FileSink.Append | src/file_sink.cpp:76-78 | the copied bytes follow the buffered ones and nothing else changes |
| FileSinks.FileSink.Write | src/file_sink.cpp:47-81 | object and returned flag agree with the value of `SinkLaws`, whose chunks take the paths `LargeChunkGoesOut` and `SmallChunkIsBuffered` say |
| FileSinks.FileSink.Flush | src/file_sink.cpp:87-92 | as the value's flush |
| FileSinks.FileSink.Destroy | src/file_sink.cpp:35-45 | the buffer still goes out at destruction |
| MinMaxRace.StepKeeps | src/metrics.cpp:35-53 | any single atomic access of any call keeps the race invariant, never raises the minimum, never lowers the maximum |
| MinMaxRace.ExtremesAreRecorded | src/metrics.cpp:35-53 | under every interleaving the extremes are recorded sizes or initial values at all times and move only inwards |
| MinMaxRace.FinishedRaceIsExact | src/metrics.cpp:35-53 | when all calls have returned, minimum, maximum and (mod 2^64) sum are exact |
| MinMaxRace.RaceEnds | src/metrics.cpp:38-50 | n concurrent calls make at most 5n(n+1) accesses plus one per spurious failure: the exchange loops are lock-free |
| Percentiles.SortSorts | src/metrics.cpp:91-93 | the sorted copy is ascending and a permutation |
| Percentiles.PercentileIsNearestRank | src/metrics.cpp:83-105 | for 0 < p <= 100 the result is the one value with at least r values at or below it and fewer than r below it, r = ceil(p N / 100) |
| Percentiles.PercentileGrows | src/metrics.cpp:229-231 | P50 <= P95 <= P99, and so for any two percentages above 0 |
| Percentiles.PercentileZeroIsMaximum | src/metrics.cpp:97-102 | at p = 0 the wrapped index is clamped to the maximum |
| Percentiles.GrowthFromZeroIffConstant | src/metrics.cpp:97-102 | growth in p extends to p = 0 exactly for lists of one repeated value |
| Percentiles.PercentileIgnoresOrder | src/metrics.cpp:91-93 | the result does not depend on the order of recording |
| Percentiles.PercentileDominates | src/metrics.cpp:83-105 | pointwise larger values have larger percentiles |
| MetricsModel.TallyStep | src/metrics.cpp:30-53 | recording a chunk keeps totals, count, minimum and maximum true of the list of sizes |
| MetricsModel.AcquiresSplit | src/metrics.cpp:59-66 | however the acquires turn out, hits and misses are what they were and add up to the acquires |
| MetricsModel.AveragesAgree | src/metrics.cpp:151-172 | the two printed averages are the same number whenever one is printed, wrapped or not |
| MetricsModel.AveragesAreSound | src/metrics.cpp:141-178 | unless a counter wrapped, the printed average is the exact one rounded down and lies between the printed minimum and maximum |
| MetricsModel.TotalPercentileDominates | src/metrics.cpp:225-239 | if totals are the sums of their stages, the total's percentile is at least each stage's |
| MetricsRecorder.Metrics.AddBytes | src/metrics.cpp:30-33 | object against value |
| MetricsRecorder.Metrics.RecordChunkSize | src/metrics.cpp:35-53 | undisturbed, the two exchange loops record minimum, maximum and sum however often they fail spuriously |
| MetricsRecorder.Metrics.RecordChunkTiming | src/metrics.cpp:55-57 | the entry is appended |
| MetricsRecorder.Metrics.RecordBufferAcquire | src/metrics.cpp:59-66 | hit or miss is counted with the acquire |
| MetricsRecorder.Metrics.RecordBufferRelease | src/metrics.cpp:68-70 | the release is counted |
| MetricsRecorder.Metrics.StageValues | src/metrics.cpp:72-81 | one stage's values in recording order; which clock readings they come from is `RunTiming.TurnFillsRows` |
| MetricsRecorder.Metrics.StagePercentile | src/metrics.cpp:225-233 | a cell of the latency table is the percentile of that stage's recorded values |
| BufferPools.BufferPool.constructor | src/buffer_pool.cpp:3-14 | all buffers fresh, distinct, of the given size and free in order |
| BufferPools.BufferPool.Acquire | src/buffer_pool.cpp:16-28 | the head of the queue, or null exactly when none is free |
| BufferPools.BufferPool.Release | src/buffer_pool.cpp:30-36 | any buffer, of the pool or not, joins the tail of the queue |
| BufferPools.ServedKeepsIff | src/buffer_pool.cpp:16-36 | one operation keeps free plus held buffers exactly when it does not give back something not held |
| BufferPools.BuffersPartition | src/buffer_pool.cpp:3-36 | if clients give back only what they hold, each buffer is always free or held, once |
| FaultInjectors.FiresFromTheNth | include/fault_injector.h:37-55 | armed with n it fires at the n-th completion and every later one, never before; with 0 it is the disabled stub |
| FaultInjectors.SingleShot | include/fault_injector.h:43-68 | a single-shot request is answered once |
| FaultInjectors.FaultInjector.OnChunkCompleted | include/fault_injector.h:49-55 | object against value |
| FaultInjectors.FaultInjector.ShouldFail | include/fault_injector.h:59-68 | object against value |
| FaultRun.ArmedRunStopsOnTime | src/vdi_client.cpp:393-408 | an armed run completes at most the remaining number of commands; the last of them, if it comes, injects the one fault and fails the run, and otherwise none is injected |
| FaultRun.ArmedCallStopsOnTime | include/fault_injector.h:37-75 | arming a client with n before a run makes the run fail with the one fault at its n-th completion exactly; arming with 0 or a reset leaves it without any |
| Timers.QpcExactIffWithinLimit | include/timer.h:60-66 | a reading is the exact floor of elapsed microseconds if and only if the elapsed ticks are within floor((2^64-1)/10^6) |
| Timers.QpcMonotone | include/timer.h:60-66 | within the limit readings never go back |
| Timers.QpcDurationError | include/timer.h:60-66 | a difference of two readings is within 1 us of the ticks between them |
| Timers.QpcTotalError | src/vdi_client.cpp:412 | four stage durations sum to within 4 us of their ticks |
| RunTiming.TurnTimesUnderQpc | include/timer.h:60-66 | under a performance counter within its limit, the total a turn records is within 4 us of the ticks its stages took |
| ProtocolRules.LegalTracesFit | docs/vdi-flow.md:12-19 | in a legal trace opened devices are live, released or lost, exclusively, and the set's counts follow from its phase |
| ProtocolRules.LegalTracesKeepOrder | docs/vdi-flow.md:58-59 | in a legal trace commands are stored at most once and completed at most once, in the order handed out |
| Completion.CompletedUnlessClosedOrRefused | docs/vdi-flow.md:59 | in a legal trace with nothing outstanding, the uncompleted commands are one per VDC_Close and one per unstored write; all are completed, once and in order, iff there is neither |
| Completion.LifetimeCompletesAllIff | docs/vdi-flow.md:59 | the same of every lifetime, whatever happens in it |
| Witnesses.CloseStaysUncompleted | src/vdi_client.cpp:321-324 | a run whose last command, a VDC_Close, is never completed |
| ProtocolRules.TurnObeys | src/vdi_client.cpp:254-425 | a turn started with nothing outstanding makes only permitted calls; no write is completed before the sink took it; what it leaves outstanding may be dropped |
| ProtocolRules.ServeObeys | src/vdi_client.cpp:252-426 | every turn of every loop starts with nothing outstanding, and the loop ends with at most one outstanding, only after FAILED or a VDC_Close command, which may be dropped |
| LifetimeRules.LifetimeKeepsRules | src/vdi_client.cpp:31-437 | every lifetime keeps the protocol rules; a created set is released once, closed once exactly when connect succeeded, and every device is released once or belongs to a failed opening |
| LifetimeRules.FailedOpeningLoses | src/vdi_client.cpp:233-244 | a failed opening loses exactly the devices opened before it in the run, so none just when the first call failed |
| Witnesses.FirstDeviceIsNeverReleased | src/vdi_client.cpp:236-241 | the whole trace of a lifetime that opens one of two devices and never releases it |
| LifetimeRules.NoFailedOpeningNothingLost | src/vdi_client.cpp:428-432 | without a failed OpenDevice nothing is lost |
| LifetimeRules.CallObeys | src/vdi_client.cpp:46-200 | each public call keeps the rules and leads to the one state its answers decide; out of turn it leads nowhere; only process_commands has a choice, from STREAMING |
| LifetimeRules.ConnectAnswers | src/vdi_client.cpp:46-121 | after any calls, connect succeeds exactly in INIT with all three answers good; otherwise in INIT it leaves FAILED without a set, and elsewhere it changes nothing; the calls it makes |
| LifetimeRules.OpenDevicesAnswers | src/vdi_client.cpp:125-168 | after any calls, open_devices streams exactly if the client is CONNECTED and the configuration arrives; without it the client is FAILED and no later call revives it; elsewhere nothing changes |
| LifetimeRules.CloseAnswers | src/vdi_client.cpp:172-200 | after any calls, close flushes exactly a streaming client, gives up exactly a set that is there, and ends CLOSED; a second one changes nothing |
| LifetimeRules.StatesOnlyAdvance | src/vdi_client.cpp:46-200 | over all call sequences the state rank never falls, FAILED leads only to CLOSED, CLOSED stays, and the closed flag means CLOSED |
| LifetimeRules.SetIsLive | src/vdi_client.cpp:218-222 | after any calls a connected or streaming client has its set, so the null-set exits are never taken |
| LifetimeRules.ServeStops | src/vdi_client.cpp:252-324 | the loop stops on every finite script that ends in VD_E_CLOSE, VD_E_EOF, any other failure but a timeout, or a VDC_Close command |
| LifetimeRules.ServeIgnoresRest | src/vdi_client.cpp:252-301 | a stopped loop takes nothing more from its script |
| TurnFacts.StopReplyStops | src/vdi_client.cpp:266-324 | such a reply stops the loop in any session |
| TurnFacts.TurnOutcome | src/vdi_client.cpp:266-425 | a turn that runs on got no ending reply; one that stops flushes exactly on VD_E_CLOSE or VD_E_EOF, stays streaming exactly on VDC_Close, and fails otherwise; the time of its GetCommand is remembered |
| Service.TurnStopsIff | src/vdi_client.cpp:266-408 | a turn stops exactly for a failure other than a timeout, a VDC_Close, a write without buffer or outside 1 byte to 1 GiB, a write the sink does not take, a failed completion, or the fault's turn |
| Service.WriteTakes | src/file_sink.cpp:47-81 | whether the sink takes a chunk, by its size, the sink's state and WriteFile's next answer alone |
| Service.TurnServes | src/vdi_client.cpp:303-408 | every call made for a command, in order, and the sink after it: a good write is counted, stored and completed; a reply without a command leaves everything as it was |
| Service.OrderlyRunSucceeds | src/vdi_client.cpp:210-437 | if devices open, the file system works and the server sends well-formed commands, empty replies and timeouts until it ends the session, the run is CLOSED and all write data is on disk, in order |
| Service.OrderlyBackupSucceeds | src/main.cpp:68-129 | so from a new client on: the final file is exactly the data handed out, all of it acknowledged, whatever is called later |
| Polling.RunPollsInTurn | src/vdi_client.cpp:252-437 | a run polls its devices in turn, reply by reply, up to a reply before which none ends the loop; it closes exactly on VD_E_CLOSE or VD_E_EOF, stays open exactly on VDC_Close, otherwise fails unclosed |
| Polling.RunPollsEvenly | src/vdi_client.cpp:252-301 | at every moment of a run, read off its trace, no device was polled more than once more often than another |
| Polling.RestIsIgnored | src/vdi_client.cpp:252-437 | what the server would send after an ending reply does not change a run |
| Polling.FlushPrecedesRelease | src/vdi_client.cpp:267-283 | the sink is flushed before the run's first device release exactly when the server ended the session |
| Polling.RunOpensAndReleases | src/vdi_client.cpp:231-436 | a run opens max(device count, 1) devices in order and releases exactly those, in that order, then the set exactly if it closes |
| StallDetector.TimeoutWarnsIff | src/vdi_client.cpp:449-472 | exactly when a timeout warns; a late one moves the window to now and the total up to date, one that is not late keeps both, or starts a window that never began |
| StallDetector.FirstRunWarnsByTimeAlone | src/vdi_client.cpp:247-250 | in a first run a timeout warns by elapsed time alone, whatever was delivered |
| StallDetector.FirstRunWarnsWhenDue | src/vdi_client.cpp:247-288 | in a first run under a clock that never goes back, a timeout warns exactly when 60 s have passed since the last warning in the trace, or since the start: none is missed |
| Witnesses.WarningDespiteProgress | src/vdi_client.cpp:382 | the whole trace of a run that warns one microsecond after storing and acknowledging a chunk |
| StallDetector.ReentryMissesOneWindow | src/vdi_client.cpp:249 | a loop entered again never warns at its first late timeout, whatever turns without a write and without a late timeout came before |
| RunTiming.TurnTimes | src/vdi_client.cpp:258-424 | a turn records at most one timing: each stage is the time between its own readings, the total their exact sum, within the turn |
| RunTiming.TurnFillsRows | src/metrics.cpp:225-239 | every command a turn runs on after adds to each row of the latency table the difference of that stage's own two clock readings, 0 to the sink's row unless it was a write, and their sum to the total's; no other turn adds anything |
| RunTiming.RunIntervalsAreDisjoint | src/vdi_client.cpp:247-424 | with a clock that never goes back, a run's recorded intervals are disjoint and ordered and their totals fit in the run |
| RunTiming.RunWarningsArePaced | src/vdi_client.cpp:247-288 | the k-th warning of a run comes at least k times 60 s after its start, and warnings are 60 s apart |
| RunTiming.LifetimePercentilesDominate | src/metrics.cpp:235-239 | in every lifetime under such a clock the total's percentile is at least every stage's |
| Ledgers.TurnKeepsBooks | src/vdi_client.cpp:328-425 | a turn started with balanced books ends with them balanced, or stopped with one thing wrong; on the server's end everything is flushed |
| Ledgers.ServeKeepsBooks | src/vdi_client.cpp:252-426 | at every turn start counted, stored and acknowledged chunks agree |
| Delivery.LifetimeDelivers | src/vdi_client.cpp:252-437 | end-to-end delivery: after destruction the sink passed on every acknowledged chunk in order and at most one more; with full WriteFile calls that is the file |
| Delivery.LifetimeConservesBytes | src/file_sink.cpp:94-104 | stored bytes of a lifetime = those on disk + those dropped by flushes |
| Delivery.CleanEndIsComplete | src/vdi_client.cpp:267-283 | at a server's end everything counted was stored and acknowledged, nothing is buffered, the byte total is its length, and the file is that data iff every WriteFile whose answer was ignored took its whole block |
| Witnesses.CleanEndCanLoseData | src/file_sink.cpp:99-103 | a run that ends CLOSED with an acknowledged byte and an empty file |
| Delivery.ExplicitCloseIsComplete | src/vdi_client.cpp:172-200 | the same for close() after VDC_Close, which flushes, closes and releases in that order |
| Delivery.ClosedIsFinal | src/vdi_client.cpp:172-176 | no later call, nor destruction, changes file, books or trace |
| Delivery.FlushCommandLeavesBuffer | src/vdi_client.cpp:328-399 | VDC_Flush leaves the sink alone; the acknowledged data is on disk after it iff nothing was buffered before |
| Witnesses.FlushLeavesDataOffDisk | src/vdi_client.cpp:328-399 | a run with full WriteFile calls whose completed VDC_Flush leaves an acknowledged byte off disk |
| Delivery.DiskLagsAtMostABuffer | src/file_sink.cpp:71-80 | with full WriteFile calls, at every turn start the disk is a prefix of the acknowledged data and lags by at most the capacity |
| Delivery.LifetimeStoresSaneChunks | src/vdi_protocol.cpp:18-51 | only chunks of 1 byte to 1 GiB with a buffer reach the sink |
| Delivery.LifetimeTotals | src/vdi_client.cpp:328-424 | byte totals equal the stored data plus at most one refused chunk; timings are the successful completions in order, less one iff a fault was injected |
| Delivery.LegalTracesCountWrites | src/vdi_client.cpp:328-331 | in a legal trace every write handed out is counted once, with its size and in order |
| Delivery.LifetimeCountsWrites | src/vdi_client.cpp:328-331 | over a lifetime the byte total is, mod 2^64, the sum of the sizes of all write commands handed out, refused ones included |
| Delivery.LifetimeAverages | src/metrics.cpp:141-178 | in every lifetime the printed averages are the same number, and unless a counter wrapped it lies between the extremes |
| Delivery.LifetimeExtremes | src/metrics.cpp:141-178 | in every lifetime the printed minimum and maximum are the smallest and largest sizes of the writes handed out, or 0 if there were none |
| Delivery.LifetimePool | src/vdi_client.cpp:334-349 | acquires = hits = releases = chunks, no misses, the n-th chunk borrows buffer n mod 64, at most one is out |
| VdiClients.VdiClient.constructor | src/vdi_client.cpp:13-29 | the fresh session |
| VdiClients.VdiClient.Connect | src/vdi_client.cpp:46-121 | object against the value of `LifetimeRules.ConnectAnswers`, on every exit |
| VdiClients.VdiClient.OpenDevices | src/vdi_client.cpp:125-168 | object against the value of `LifetimeRules.OpenDevicesAnswers`, on every exit |
| VdiClients.VdiClient.Close | src/vdi_client.cpp:172-200 | object against value, idempotent |
| VdiClients.VdiClient.Destroy | src/vdi_client.cpp:31-37 | object against value, sink included |
| VdiClients.VdiClient.CheckStall | src/vdi_client.cpp:449-472 | object against the value of `StallDetector.TimeoutWarnsIff` |
| VdiClients.VdiClient.HandleRefusal | src/vdi_client.cpp:266-296 | the exits of a failed GetCommand |
| VdiClients.VdiClient.UseBufferPool | src/vdi_client.cpp:334-349 | the pool simulation with its counters |
| VdiClients.VdiClient.CountChunk | src/vdi_client.cpp:330-349 | the chunk is counted before it is checked |
| VdiClients.VdiClient.StoreChunk | src/vdi_client.cpp:328-383 | stage 3 on every exit, as the value `Service.TurnServes` and `Service.TurnStopsIff` are about |
| VdiClients.VdiClient.Acknowledge | src/vdi_client.cpp:388-424 | stage 4, fault hook and timing |
| VdiClients.VdiClient.Conclude | src/vdi_client.cpp:401-424 | fault hook and timing after a successful completion |
| VdiClients.VdiClient.ArmFault | include/fault_injector.h:37-40 | object against value |
| VdiClients.VdiClient.FailNext | include/fault_injector.h:43-45 | object against value |
| VdiClients.VdiClient.ResetFault | include/fault_injector.h:71-75 | object against value |
| VdiClients.VdiClient.HandleCommand | src/vdi_client.cpp:307-424 | stages 2 to 4 |
| VdiClients.VdiClient.ServeDevice | src/vdi_client.cpp:256-424 | one turn of the loop is the turn the laws are about |
| VdiClients.VdiClient.OpenAll | src/vdi_client.cpp:231-244 | devices are opened in order up to the first failure |
| VdiClients.VdiClient.ReleaseAll | src/vdi_client.cpp:429-432 | every device of the run is released in order |
| VdiClients.VdiClient.RunRound | src/vdi_client.cpp:254-425 | a round serves every device once, or stops, and uses at least one reply |
| VdiClients.VdiClient.RunLoop | src/vdi_client.cpp:246-426 | the nested loop terminates and is the round robin over the script |
| VdiClients.VdiClient.ProcessCommands | src/vdi_client.cpp:210-437 | object against value, from opening to the final close |
| BackupProgram.RunBackup | src/main.cpp:68-129 | the program's file holds, with full WriteFile calls, the acknowledged chunks and at most one more; exit code 0 exactly when COM, creation, configuration and the server connection all worked |
| BackupProgram.FailedRunExitsZero | src/main.cpp:124-128 | a run that failed in the loop exits 0 as well |

## Left out

- NullSink and other sinks: the client is modelled over the file sink; a sink that discards adds only easy cases, and a missing sink would be dereferenced by the loop.
- COM runtime, apartments, interface tables and identifiers: foreign declarations; `ComRuntime` ends inside `connect`, so nothing is claimed about its lifetime.
- FlushFileBuffers, CloseHandle and durability: the disk is what WriteFile reported as stored.
- Delivery.LifetimeDelivers: takes the bytes behind a command's buffer pointer as fixed until the command is completed, which is what the VDI provider guarantees.
- Percentiles.PercentileIsNearestRank: takes the rank exactly; rounding of the floating-point product in `src/metrics.cpp:97` is not modelled, nor are percentages outside 0 to 100, for which the cast may be undefined.
- Throughput, CPU use, FILETIME conversion, console and JSON text: output and floating point.
- Threads other than in `record_chunk_size`: the loop is single-threaded; the buffer pool's mutex and the other atomic counters are taken as uninterrupted.
- MinMaxRace.FinishedRaceIsExact: the accesses are sequentially consistent, as the default memory order makes them.
- set_command_timeout: the timeout value only reaches GetCommand and the log.
- `should_fail` in a session: the loop never calls it, so a single-shot request has no effect on a run; it is modelled on the injector alone.
- Restore (`VDC_Read` transfer): the loop acknowledges such commands without data, as modelled.
- environment.cpp, logging, error texts, command line, scripts and the Python client: plumbing or a weaker copy of the same loop.
