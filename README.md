# AI sim-racing coach backend: a Dafny model

This project models the core of a sim-racing telemetry backend. The backend reads telemetry from racing simulators, turns it into one unified frame, derives coaching advice from each frame, and pushes the annotated frame to live dashboard clients and to a time-series sink. The model covers:

- **Coaching engine** (`Coaching`). It is the threshold rule set of `CoachingEngine.analyze`, written as a function from a frame to an ordered list of messages. Each message is a datatype constructor that carries the number its text would show: the tyre spread, the lap estimate, the lateral g, or the signed delta.
- **Telemetry hub** (`Hub`). The hub is a class holding the client set and the latest frame. `BroadcastTelemetry` annotates the frame, keeps it as the latest, sends it to a snapshot of the clients, drops the clients whose send failed, and attempts one sink write whose failure is swallowed.
- **Demo mode** (`Demo`):
  - the `demo_running` flag and task of `start_demo` / `stop_demo`, as pure step functions and a controller class proved against them;
  - the mapping of a generator frame to a `UnifiedTelemetry`;
  - the demo loop, which broadcasts those frames through the hub.
- **Reader record and run loop** (`ReaderData`, `BaseReader`). This is the readers' `UnifiedTelemetryData`, whose sector deltas default to absent, and the `start` / `stop` loop of `BaseTelemetryReader`.
- **ACC reader** (`AccReader`). It converts the physics, graphics and static shared-memory regions into a frame. The conversion re-encodes the gear, turns milliseconds into seconds, offsets the lap number, normalises fuel with a zero-capacity guard, looks up the session name with an "Unknown" fallback, and assigns array slots to wheels. The reader's `connect` / `disconnect` state on `asm` is modelled too.
- **AMS2 reader** (`Ams2Reader`). It covers the `recvfrom` buffer limit, the length guard, the dispatch on byte 0, the stub telemetry parser, and the socket field.

The readers and the server use two different records (`ReaderData.UnifiedTelemetryData` and `Telemetry.UnifiedTelemetry`). None of the modelled code connects a reader to the hub, and the model does not connect them either. The demo generator module is not part of this model.

Modelling conventions:

- Readings are exact `real`s and counts are unbounded `int`s.
- Python's `int()` on a float is truncation toward zero (`Common.Trunc`).
- Everything outside the program is a parameter:
  - whether each client's send fails, as a set of client ids;
  - whether the sink write fails;
  - the platform check and whether the shared-memory library is available;
  - what the shared-memory and socket calls returned;
  - the sequence of read results a reader's loop sees;
  - the generator's frames.
- Each loop takes a finite sequence of oracle results.
  - For a reader, the end of that sequence is the moment `stop()` has cleared the flag and the loop check observes it. A further parameter names the read, if any, whose callback raises.
  - For the demo, a parameter says how the run ends after the ticks: a `stop_demo` call or the generator raising.

## Model

| member | source | states |
|---|---|---|
| `Common.Abs` | backend/main.py:187-188 | Python `abs` on a float: non-negative and equal to x or −x |
| `Common.Trunc` | backend/main.py:175 | Python `int()` of a float: the integer between 0 and x within distance 1 of x, for both signs |
| `Coaching.Analyze` | backend/main.py:136-197 | the message list of `analyze`: the eight rule outputs appended in source order; its meaning is the subject of `MemberOfAnalyze`, `AnalyzeInRuleOrder`, `AnalyzeAtMostEight` and the per-message iff lemmas |
| `Coaching.TireTempRule` | backend/main.py:142-154 | the overheat / cold-tyre branch on the average tyre temperature; see `TireOverheatIff`, `ColdTiresIff` |
| `Coaching.ImbalanceRule` | backend/main.py:149-157 | the imbalance message on the spread; see `TireImbalanceIff` |
| `Coaching.BrakeTempRule` | backend/main.py:160-171 | the critical / elevated brake branch; see `BrakeCriticalIff`, `BrakeHighIff` |
| `Coaching.FuelRule` | backend/main.py:174-176 | the low-fuel message and its lap estimate; see `LowFuelIff` |
| `Coaching.OverlapRule` | backend/main.py:179-180 | the pedal-overlap message; see `PedalOverlapIff` |
| `Coaching.RpmRule` | backend/main.py:183-184 | the shift-up message; see `ShiftUpIff` |
| `Coaching.LateralRule` | backend/main.py:187-188 | the lateral-g message; see `HighLateralGIff` |
| `Coaching.DeltaRule` | backend/main.py:191-195 | the lap-delta message; see `LapDeltaIff` |
| `Coaching.TireSpread` | backend/main.py:149 | the spread max − min of the four tyre temperatures is never negative |
| `Coaching.TireOverheatIff` | backend/main.py:148-152 | the overheat message is present exactly when the average tyre temperature exceeds 105 |
| `Coaching.ColdTiresIff` | backend/main.py:151-154 | the cold-tyre message is present exactly when the average is below 70 |
| `Coaching.TireMessagesExclusive` | backend/main.py:151-154 | overheat and cold-tyre messages never occur together |
| `Coaching.TireImbalanceIff` | backend/main.py:149-157 | an imbalance message with payload s is present exactly when the spread exceeds 15 and s is that spread |
| `Coaching.BrakeCriticalIff` | backend/main.py:166-169 | the critical brake message is present exactly when the brake average exceeds 800, and then the elevated one is absent |
| `Coaching.BrakeHighIff` | backend/main.py:166-171 | the elevated brake message is present exactly when 650 < average ≤ 800 |
| `Coaching.LowFuelIff` | backend/main.py:174-176 | a low-fuel message with n laps is present exactly when fuel_level < 0.15 and n = int(fuel_level × 50); a non-negative level gives 0..7 laps |
| `Coaching.PedalOverlapIff` | backend/main.py:179-180 | the overlap message needs throttle > 0.2 and brake > 0.2, strictly |
| `Coaching.ShiftUpIff` | backend/main.py:183-184 | the shift message is present exactly when rpm > 0.95 × max_rpm |
| `Coaching.HighLateralGIff` | backend/main.py:187-188 | a lateral-g message with payload g is present exactly when abs(g_lat) > 2.5 and g = abs(g_lat) |
| `Coaching.LapDeltaIff` | backend/main.py:191-195 | a delta message is present exactly when best < 999, lap_time > 0, and the delta lap_time − best × lap_distance differs from 0 by more than 0.5; it carries that delta, with the "+" marker exactly for a positive delta |
| `Coaching.MemberOfAnalyze` | backend/main.py:139-197 | a message appears in the output exactly when its own rule produced it; no rule emits another rule's message |
| `Coaching.AnalyzeInRuleOrder` | backend/main.py:139-197 | the messages come out in strictly increasing rule order (tyre, imbalance, brake, fuel, overlap, rpm, g, delta) |
| `Coaching.AnalyzeAtMostEight` | backend/main.py:139-197 | at most eight messages, one per rule |
| `Coaching.LowFuelTenPercent` | backend/main.py:174-176 | fuel_level 0.10 gives a low-fuel message with 5 laps |
| `Coaching.ShiftBoundary` | backend/main.py:183-184 | with max_rpm 10000: rpm 9500 gives no shift message, rpm 9501 gives one |
| `Coaching.OverlapExamples` | backend/main.py:179-180 | throttle 0.5 with brake 0.3 gives the overlap message; 0.2 with 0.2 does not |
| `Coaching.HotEvenTires` | backend/main.py:142-157 | tyres at 110/108/106/107 give the overheat message and no imbalance message |
| `Hub.TelemetryHub.constructor` | backend/main.py:203-219 | a new hub has no clients and no latest frame; the write API exists exactly when creating the database client and then its write API both succeeded |
| `Hub.TelemetryHub.BroadcastTelemetry` | backend/main.py:221-277 | latest becomes the frame with coaching_messages = analyze(frame); the clients become the old clients minus exactly those whose send failed; the others received the frame; the sink write is attempted only with a write API, and its failure changes neither the clients nor latest |
| `Hub.TelemetryHub.AddClient` | backend/main.py:279-281 | the client joins the set |
| `Hub.TelemetryHub.RemoveClient` | backend/main.py:283-285 | the client leaves the set; removing an absent client changes nothing |
| `Demo.ReplyStatus` | backend/main.py:358-375 | each reply's `status` string; a raised exception has none |
| `Demo.ReplyStatusInjective` | backend/main.py:358-375 | the four status strings are distinct |
| `Demo.StartStep` | backend/main.py:351-359 | the start step of the flag and task; see `StartStopReplies`, `StepsKeepValid`, `StartStopIdempotent` |
| `Demo.StopStep` | backend/main.py:362-375 | the stop step, including the re-raise for a failed task; see the same lemmas |
| `Demo.CrashStep` | backend/main.py:407-417 | the demo task raising: a live task fails and the flag stays set |
| `Demo.StartStopReplies` | backend/main.py:351-375 | "started" exactly when not running and "already_running" exactly when running; afterwards running is set. When running, stop replies "stopped" for a task that has not failed and raises for a failed one; "already_stopped" exactly when not running. Running is cleared afterwards, and an "already" reply changes nothing |
| `Demo.StepsKeepValid` | backend/main.py:351-417 | start, stop and the task raising keep the invariant: a live task has the flag set, and a set flag has a live or failed task |
| `Demo.StartStopIdempotent` | backend/main.py:351-375 | a second start (stop) changes nothing and replies "already_running" ("already_stopped") |
| `Demo.StopAfterStart` | backend/main.py:362-375 | stopping a started demo clears the flag and cancels the task with "stopped", or raises if the already-running task had failed |
| `Demo.CrashedDemoBlocksStart` | backend/main.py:351-375 | after the demo task raises, start still replies "already_running"; the next stop clears the flag and raises; a start after that succeeds |
| `Demo.DemoController.constructor` | backend/main.py:33-34 | before start-up the flag is clear and there is no task |
| `Demo.DemoController.StartDemo` | backend/main.py:351-359 | the new flag, task and reply are those of the start step |
| `Demo.DemoController.StopDemo` | backend/main.py:362-375 | the new flag, task and reply are those of the stop step |
| `Demo.DemoController.Crash` | backend/main.py:407-417 | the new flag and task are those of the crash step |
| `Demo.DemoController.Startup` | backend/main.py:495-497 | start-up sets the flag and starts the task unconditionally |
| `Demo.DemoController.RunDemo` | backend/main.py:407-481 | with a live task, each generator frame is mapped and broadcast. The hub ends with the last mapped frame, annotated, and without every client a send failed to reach. Otherwise the hub is untouched. The run then ends with `stop_demo`, returning its reply and new state, or with the generator raising, which leaves the flag set and the task failed |
| `Demo.DemoToUnified` | backend/main.py:420-479 | the generator-frame mapping; see `DemoPosition`, `DemoSectorsIff`, `DemoLeaderboardShape`, `DemoFuel`, `DemoSessionClock`, `DemoFixedFields` |
| `Demo.DemoPosition` | backend/main.py:461 | the simulated position is 1 + lap_number mod 3, so it stays in 1..3 and changes every lap |
| `Demo.DemoSectorsIff` | backend/main.py:467-469 | all three sector deltas are present exactly when the generator has a best lap (best < 999) |
| `Demo.DemoLeaderboardShape` | backend/main.py:470-476 | five entries with positions 1..5, the player leading; best laps are present exactly with a best lap and grow down the order |
| `Demo.DemoFuel` | backend/main.py:455-456 | fuel is the level of a 120-litre tank; fuel_laps is the generator's estimate truncated |
| `Demo.DemoSessionClock` | backend/main.py:464 | remaining session time + lap time + 150 s per completed lap = 1800 s |
| `Demo.DemoFixedFields` | backend/main.py:420-479 | the demo frame carries the game "Demo Mode", current_lap_time equal to lap_time, the fixed electronics and grid size, and no coaching messages |
| `ReaderData.GearMeaning` | backend/telemetry_readers/acc_reader.py:80 | the canonical gear encoding: −1 reverse, 0 neutral, k ≥ 1 forward gear k |
| `BaseReader.Frames` | backend/telemetry_readers/base_reader.py:128-132 | the frames handed to the callback, in read order; see `FramesAreReads`, `FramesBounded`, `NoFramesWhenAllNone` |
| `BaseReader.LastFrame` | backend/telemetry_readers/base_reader.py:128-131 | latest_data after a run of reads; see `LastFrameIsLastCallback` |
| `BaseReader.Performed` | backend/telemetry_readers/base_reader.py:127-133 | the reads the loop performs are a prefix of the oracle: all of it, or exactly up to the read whose callback raises |
| `BaseReader.RaisingFrameIsLatest` | backend/telemetry_readers/base_reader.py:130-132 | when the callback raises, its frame is the last callback and is already latest_data |
| `BaseReader.FramesAreReads` | backend/telemetry_readers/base_reader.py:128-132 | the callback receives a frame exactly when some read returned it |
| `BaseReader.FramesBounded` | backend/telemetry_readers/base_reader.py:128-132 | there are no more callbacks than reads |
| `BaseReader.NoFramesWhenAllNone` | backend/telemetry_readers/base_reader.py:129-130 | reads that are all `None` give no callback |
| `BaseReader.LastFrameIsLastCallback` | backend/telemetry_readers/base_reader.py:128-132 | latest_data ends as the last frame handed to the callback, or keeps its value when there was none |
| `BaseReader.ReaderLoop.constructor` | backend/telemetry_readers/base_reader.py:87-89 | a new reader is not running and has no latest data |
| `BaseReader.ReaderLoop.Start` | backend/telemetry_readers/base_reader.py:112-136 | running is set and connect is called once. A failed connect returns with running still set, and with no read, callback, latest_data change or disconnect. After a successful connect, the loop reads until stop is observed or a callback raises; that read is the last. The callbacks are the non-`None` reads among those performed, latest_data is the last of them, and disconnect is called exactly once on both paths. The exception leaves `start` exactly when a callback raised, and then running is still set |
| `BaseReader.ReaderLoop.Stop` | backend/telemetry_readers/base_reader.py:138-140 | stop only clears running |
| `AccReader.WheelIndex` | backend/telemetry_readers/acc_reader.py:102-117 | each wheel reads one of the slots 0..3 |
| `AccReader.WheelIndexBijective` | backend/telemetry_readers/acc_reader.py:102-117 | FL, FR, RL, RR take slots 0, 1, 2, 3, one each |
| `AccReader.SessionType` | backend/telemetry_readers/acc_reader.py:152-165 | the name is "Unknown" exactly for codes outside 0..8, and the table's name for codes inside |
| `AccReader.SessionTypeInjective` | backend/telemetry_readers/acc_reader.py:154-164 | the nine known codes have nine distinct names |
| `AccReader.ConvertRegions` | backend/telemetry_readers/acc_reader.py:76-150 | the conversion yields a frame exactly when the physics arrays have every slot it indexes; otherwise the raised index error gives `None` |
| `AccReader.AccGearReencoded` | backend/telemetry_readers/acc_reader.py:80 | the converted gear means the same gear as the ACC code (0 reverse, 1 neutral, 2 first gear) |
| `AccReader.AccTimesInSeconds` | backend/telemetry_readers/acc_reader.py:85-88 | lap, last-lap, best-lap and remaining-session times are the millisecond inputs divided by 1000 |
| `AccReader.AccLapNumber` | backend/telemetry_readers/acc_reader.py:86 | the lap number is one past the completed laps |
| `AccReader.AccFuel` | backend/telemetry_readers/acc_reader.py:122-124 | with positive capacity, fuel_level × capacity = fuel; otherwise it is 0; a fuel amount within capacity gives a level in [0,1]; the fuel amount passes through; fuel_laps is 0 |
| `AccReader.AccWheelsAndForces` | backend/telemetry_readers/acc_reader.py:97-117 | each wheel's tyre temperature, pressure and brake temperature come from its own slot; AccG[0..2] pass through to lateral, longitudinal and vertical g |
| `AccReader.AccSectorsAbsent` | backend/telemetry_readers/acc_reader.py:143-145 | a converted frame has no sector deltas |
| `AccReader.AccSessionName` | backend/telemetry_readers/acc_reader.py:138 | the frame's session name is "Unknown" exactly for an unmapped code |
| `AccReader.AccReader.constructor` | backend/telemetry_readers/acc_reader.py:28-31 | a new reader has no handle |
| `AccReader.AccReader.Connect` | backend/telemetry_readers/acc_reader.py:33-58 | connect succeeds exactly on Windows, with the library installed, a handle created and a first physics read; a failed first read leaves the new handle set |
| `AccReader.AccReader.ReadTelemetry` | backend/telemetry_readers/acc_reader.py:60-150 | no frame without a handle or with a missing region; otherwise the conversion of the three regions |
| `AccReader.AccReader.Disconnect` | backend/telemetry_readers/acc_reader.py:167-171 | the handle is cleared, idempotently |
| `Ams2Reader.Received` | backend/telemetry_readers/ams2_reader.py:56 | a receive keeps at most PACKET_SIZE = 1367 leading bytes of the datagram, and a datagram that fits whole |
| `Ams2Reader.Classify` | backend/telemetry_readers/ams2_reader.py:58-70 | a packet under 10 bytes is dropped before its type byte is read; only type 0 is a telemetry packet |
| `Ams2Reader.RaceDataAndParticipantsNotParsed` | backend/telemetry_readers/ams2_reader.py:27-29 | race-data (1) and participant (2) packets are not parsed |
| `Ams2Reader.ParseTelemetryPacket` | backend/telemetry_readers/ams2_reader.py:78-101 | the stub parser yields no frame |
| `Ams2Reader.Dispatch` | backend/telemetry_readers/ams2_reader.py:58-70 | only a telemetry packet reaches the parser; every other packet yields `None` |
| `Ams2Reader.NoPacketYieldsFrame` | backend/telemetry_readers/ams2_reader.py:56-70 | no datagram of any length or type gives a frame |
| `Ams2Reader.Ams2Reader.constructor` | backend/telemetry_readers/ams2_reader.py:31-34 | a new reader has its port, 9998 by default, and no socket |
| `Ams2Reader.Ams2Reader.Connect` | backend/telemetry_readers/ams2_reader.py:36-47 | connect succeeds exactly when socket creation, bind and setting the timeout succeed. A failed bind leaves the unbound socket in the field, and a failed timeout leaves the bound one |
| `Ams2Reader.Ams2Reader.ReadTelemetry` | backend/telemetry_readers/ams2_reader.py:49-76 | `None` without a socket, on a timeout or on any socket error; otherwise the dispatch of the received bytes, which is `None` too |
| `Ams2Reader.Ams2Reader.Disconnect` | backend/telemetry_readers/ams2_reader.py:103-106 | an existing socket is closed and stays in the field; with none, nothing changes |

## Left out

- Floating point is not modelled: exact reals can differ from IEEE doubles at a boundary. The products `max_rpm * 0.95` and `fuel_level * 50` are rounded in the source.
- Message text is not modelled: the emoji strings and the `:.1f` / `:.2f` / `:.3f` formatting are left out. The constructors carry the unformatted numbers.
- `coaching_message` is never assigned by the hub. The model keeps whatever the frame had.
- Python aliases the frame: `latest_telemetry` and the argument are one object, so assigning `coaching_messages` updates both. The model stores the annotated value, which is what both names then see.
- Serialisation (`json.dumps(asdict(...))`) is left out. Every delivered client receives the same annotated frame.
- Building the sink point is left out: the tags, the fields and the `utcnow()` timestamp. Creating the database client is a constructor parameter.
- Concurrency is not modelled:
  - the event loop, `await` interleavings, and client-set changes during a broadcast;
  - the 16 ms sleeps;
  - cancelling the demo task at an `await` in the middle of an iteration.
  Each loop iteration runs to completion. A loop ends at its check, or after a whole iteration when the demo generator or a reader callback raises.
- `Demo.DemoController.RunDemo`: a generator exception is taken after the last tick, so a partial iteration that raises is not modelled. `stop_demo`'s cancel lands at an `await`, so a cancelled run broadcasts whole ticks only.
- `BaseReader.ReaderLoop.Start`: only the callback may raise. An exception from `read_telemetry` itself is not modelled, because both readers catch their own errors and return `None`.
- The demo generator (`GT3TelemetrySimulator`) is not part of this model. Its frames and lap state are inputs.
- The web surface is left out: the FastAPI app, CORS, the `/ws` endpoint with its initial send, `/` and `/api/status`, and uvicorn/dotenv start-up. The `udp_receiver_*` functions only print and are left out too.
- The foreign calls are inputs: `platform.system()`, `pyaccsharedmemory`, socket creation, bind, `settimeout` and `recvfrom`. The ACC model merges a region read that raises with one that returns `None`, because the reader treats both alike.
- `AccReader.ConvertRegions`: the ACC field types (C ints and floats in shared memory) are taken as Python ints and floats. `fuel_level` is the integer 0 for zero capacity and is modelled as real 0.
- The byte layout of Project CARS 2 packets is left out, because the source does not parse it.
- The LMU and R3E readers are left out. They are stubs whose connect always fails and whose read always returns `None`.
- `telemetry_readers/__init__.py` is left out. It only re-exports names.
