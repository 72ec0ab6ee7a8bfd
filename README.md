# Aethorac2 room controller: a verified model

This project models the control core of a hotel-room controller. The firmware runs on an ESP32. It talks to the room's wall panels, air-conditioner thermostats and the test tool over an RS485 bus, and to an STM32 I/O board (relays, dry contacts, input channels) over a second UART. The model covers:

- the input side:
  - wall-panel keys and their backlights (`PanelInput`);
  - I/O-board channel inputs, including the infrared presence sensor with its "uncertain" timer and door guards (`ChannelInput`);
  - voice commands (`VoiceCommand`);
  - the dispatch of the I/O board's reports (`Stm32Rx`);
  - the expiry of the presence sensor's uncertain timer, which runs the infrared-timeout inputs of its channel (`PresenceTimeout`).
- the scenes: action groups with their one-run-at-a-time guard and mode switch (`ActionGroups`), and the indicator coalescer that publishes each panel's backlight once per scene (`Indicator`).
- the output devices:
  - relay outputs, dry-contact outputs, lamps and board outputs (`RelayOut`, `DryContactOut`, `Lamp`, `BoardOutput`);
  - the curtain state machine (`Curtain`);
  - the background-music amplifier (`Bgm`);
  - the air conditioners with their bit codecs, fan stepping, temperature clamping and hysteresis (`AirConditioner`);
  - the preset pseudo-devices: room state, delays, scene control, snapshots, indicators and heartbeat (`PresetDevice`).
- the shared state:
  - the room-state set (`RoomState`) and the carry-state hook every device shares (`DeviceBase`, `Inputs`);
  - the lord singleton's registries (`Lord`) and its other state (`LordContext`);
  - the older registry layer (`ManagerBase`);
  - the serial-number store (`Identity`) and the small helpers (`Commons`).
- the wire codecs:
  - the RS485 8-byte frame and its transmit queue (`Rs485Frames`);
  - the Wi-Fi credential reassembly (`Rs485Session`);
  - the RS485 receive task, the frame dispatch and the 14-byte status frame (`Rs485Comm`);
  - the STM32 frame and its builder (`Stm32Frames`).
- the Python bench-test tool `rs485_oracle.py` (`Oracle`): its command builders, its reply and status parsers and its receiver. It is the counterpart of the firmware's test mode, so the model proves round trips across the two, such as:
  - a credential chunked by the tool and reassembled by the firmware;
  - a status frame built by the firmware and read by the tool.

Objects whose fields the firmware updates in place are Dafny classes with `modifies` clauses: panels, inputs, devices, registries, the receive tasks and the credential receivers. Each such method is specified against a pure function of the old state, and the properties are proved about those functions. Pure byte computations (codecs, checksums, parsers) are functions.

Where the source is incomplete, the model follows the `.cpp` bodies and fills the gaps as follows:

- Constructors store their arguments in the fields even where the headers declare no such field (the `Lamp` exception follows). They do so also where a header declares the field and its constructor leaves it unset: `ChannelInput`'s constructor (components/channel_input/channel_input.h:12-13) passes `channel`, `trigger_type` and `duration` to nothing, and the model takes them to hold the arguments, as every reader of them assumes.
- `Lamp`'s constructor (components/lamp/lamp.h:13-14) takes an `initial_state` that it only hands to the relay constructor. There it lights the associated buttons, and a new device has none (components/relay_out/relay_out.h:9-11), so the model drops the argument. `Lamp::execute` reads and writes a `current_state` (components/lamp/lamp.cpp:19,30,44) that no header declares. The model makes it a field of the lamp that starts off (`Lamp.Lamp.constructor`).
- The air-conditioning settings live in two singletons. The `AirConBase` constructor reads a new unit's defaults from `AirConManager` (components/air_conditioner/air_conditioner.h:37-57). The operation bodies read `AirConGlobalConfig` (components/air_conditioner/air_conditioner.cpp:39,91), including a `shutdown_after_fan_speed` that `AirConManager` lacks; its declaration is not part of this model. The model merges the two into one value, `AirConditioner.AcConfig`, which every operation and the unit constructors take as an argument.
- `VoiceCommand`'s constructor (components/voice_command/voice_command.h:14) stores the `int` values of the parsed phrase code in a `uint8_t` vector. The model keeps each value's low byte, so a pair that `stoi` reads as negative wraps (`VoiceCommand.VoiceCommand.constructor`).
- Three calls into functions that the sources do not define are modelled as the frames the rest of the code sends for the same purpose: `sendStm32Cmd`, `controlRelay` and `controlDrycontactOut`.
- `Panel::wishIndicatorByButton` is called by the relay, dry-contact, curtain, BGM and preset devices (components/relay_out/relay_out.cpp:46, components/drycontact_out/drycontact_out.cpp:43, components/curtain/curtain.cpp:222, components/bgm/bgm.cpp:53, components/preset_device/preset_device.cpp:172,174), and no header declares it. The model takes it to be the panel's declared `updateButtonIndicator` (components/panel_input/panel_input.h:41, `PanelInput.Panel.UpdateButtonIndicator`): the button's backlight bit takes the state and one publish of the panel is queued.
- The sources call lord members that lord_manager.h does not declare. The model gives them these meanings (`LordContext.Context` and `Lord.LordManager`):
  - `isSleep`: the sleep heartbeat is the one being sent.
  - `getActionGroupByAid` (components/preset_device/preset_device.cpp:102,107): the registered scene with that id, or none (`Lord.LordManager.GetActionGroupByAid`).
  - `setAnyKeyActionGroup` and `clearAnyKeyActionGroup`: arm or disarm one scene id as the "any key" scene.
  - `execute_any_key_action_group`: an armed scene is disarmed and, when registered, requested; the call reports whether one was armed.
  - `onDoorOpened` and `onDoorClosed`: record the door as open or closed, with the uptime in `last_door_open_time` or `last_door_close_time`.
  - `updateRelayPhysicsState`: record the board's report for a relay channel, non-zero as on.
  - `readRelayPhysicsState`: a channel the board has never reported reads as off.
  - `getAliveChannel`: the registered input tagged as the card-slot channel, or none. components/manager_base/manager_base.h:239 declares a `uint8_t` version, but components/stm32_comm/stm32_rx.cpp:71 uses a pointer to an input, so the model follows the caller.
  - `getAllChannelInputByChannelNum`: every registered input on the channel, each once; the model leaves their order open.
  - The fields `door_open`, `last_presence_time`, `last_door_open_time`, `last_door_close_time` and `last_action_group_time` are plain fields of the lord. `dayTimeStart` and `nightTimeStart` are fixed by the configuration.
- The lord's `getAlive()` is always true (components/lord_manager/lord_manager.h:76, `LordContext.GetAlive`). `Stm32Rx.HandleDryContact`, `Stm32Rx.AdmitReport`, `Stm32Rx.HandleResponse`, the other board-report members and `Rs485Comm.Env` take it as a parameter `alive`, and their contracts are stated for either value. With the firmware's value the card-out refusal never happens.
- `ChannelInput`'s constructor takes the input id as a `uint8_t` (components/channel_input/channel_input.h:12), while `registerDryContactInput` takes a `uint16_t` and keys the registry by the input's own id (components/lord_manager/lord_manager.cpp:158-160). The model keeps the low eight bits in the input and keys the registry by them.
- `IDevice` keeps the device id in a `uint8_t` (components/idevice/idevice.h:16,31), while the registry's lookup takes a `uint16_t`. The model keeps the low eight bits in every device and keys the registry by them, so a device registered with an id of 256 or more is stored under its low byte and is not found by its full id.
- Where the model states both the code as written and a corrected version (see Findings), the component takes the choice as a constant: `Rs485Comm.Rs485Comm.timing` is `FromFirstPacket` for the firmware, `PresetDevice.Snapshot.spelling` is `AsWritten` for the firmware, the presence timer's callback uses the expiry as written, `Oracle.OracleTool.casing` is `LowerAll` for the bench tool as written (the whole line is lowered), and `Oracle.ToolReceiver.framing` is `AtFirstFooter` for the tool as written (a frame ends at the first 0x7E).

FreeRTOS tasks and timers become explicit events: a scene's `Finish`, a curtain's `CompleteAction`, the infrared sensor's uncertain timer (`PresenceTimeout.UncertainTimerCallback`) and the AC shutdown timer. Clock readings are parameters.

## Model

| member | source | states |
|---|---|---|
| Indicator.AddedQueuesOnlyNewKeys | components/indicator/indicator.cpp:11-16 | adding a closure queues it exactly when its panel key is not yet registered, registers the key, and keeps one queued closure per registered key |
| Indicator.SecondAddIsIgnored | components/indicator/indicator.cpp:11-16 | a second request for the same panel before a flush leaves the queue unchanged, so each panel is published at most once per flush |
| Indicator.RequeueAfterFlush | components/indicator/indicator.cpp:3-16 | after a flush the same panel can be queued again |
| Indicator.IndicatorHolder.constructor | components/indicator/indicator.h:30 | the singleton starts with no queued closures and no registered panels |
| Indicator.IndicatorHolder.AddFunction | components/indicator/indicator.cpp:11-16 | the new queue is the old one with the closure added iff its key is new; the one-closure-per-key invariant is kept |
| Indicator.IndicatorHolder.CallAllAndClear | components/indicator/indicator.cpp:3-9 | every queued closure is run once in queue order, then both collections are empty |
| RoomState.IndexOf | components/room_state/room_state.cpp:6 | the position found is the first one holding the name, or the length when the name is absent |
| RoomState.AddedSpec | components/room_state/room_state.cpp:4-10 | after add_state the name is present, nothing else is added, no name is duplicated, and adding twice equals adding once |
| RoomState.RemovedSpec | components/room_state/room_state.cpp:12-21 | after remove_state the name is absent, every other name stays, and there are no duplicates |
| RoomState.ToggledSpec | components/room_state/room_state.cpp:23-31 | toggle_state flips the membership of the name and of no other name |
| RoomState.OthersKeepOrder | components/room_state/room_state.cpp:4-31 | add, remove and toggle keep the other names in their relative order |
| RoomState.IndexUnique | components/room_state/room_state.cpp:6 | any index with the find properties is the one IndexOf computes |
| RoomState.RoomStates.constructor | components/room_state/room_state.h:8 | the state array starts empty |
| RoomState.RoomStates.Find | components/room_state/room_state.cpp:14 | the linear search returns the first position holding the name, or the length |
| RoomState.RoomStates.AddState | components/room_state/room_state.cpp:4-10 | the new array is Added of the old one, and stays free of duplicates |
| RoomState.RoomStates.RemoveState | components/room_state/room_state.cpp:12-21 | returns true iff the name was present; the name is then absent and the array is Removed of the old one |
| RoomState.RoomStates.ToggleState | components/room_state/room_state.cpp:23-31 | the new array is Toggled of the old one, without duplicates |
| RoomState.RoomStates.ExistState | components/room_state/room_state.cpp:33-37 | true iff the name is in the array |
| RoomState.RoomStates.GetRoomStates | components/room_state/room_state.cpp:39-42 | returns a copy equal to the array |
| Identity.CString | components/identity/identity.cpp:12 | the string read from a buffer is its longest NUL-free prefix, ended by a NUL when shorter than the buffer |
| Identity.IsValidSerial | components/identity/identity.cpp:9-22 | true iff the serial is present, exactly eight characters long, and every character is a decimal digit |
| Identity.SerialNumber | components/rs485_comm/rs485_comm.cpp:477 | the numeric serial is 0 for an empty serial and below 10^8 for eight digits |
| Identity.SerialValueBound | components/rs485_comm/rs485_comm.cpp:477 | the value of k decimal digits is below 10^k |
| Identity.SerialStore.constructor | components/identity/identity.cpp:25-26 | the static buffer starts empty and not initialised |
| Identity.SerialStore.GetSerialNum | components/identity/identity.cpp:24-60 | once initialised the same serial is returned for good; a missing partition or failed read returns "" and leaves it uninitialised; a read stores the serial if it is valid and "" otherwise; the result is always "" or eight digits |
| Identity.NulShortensSerial | components/identity/identity.cpp:12-14 | a NUL among the eight bytes makes the stored serial too short to be valid |
| Identity.NonDigitInvalidatesSerial | components/identity/identity.cpp:16-20 | a non-digit among the eight bytes makes the serial invalid |
| Identity.EightDigitsPass | components/identity/identity.cpp:9-22 | eight digits are read whole and accepted |
| Identity.ValidSerialIsWhole | components/identity/identity.cpp:48-50 | a valid serial contains no NUL and is read whole |
| Identity.CStringStopsAtNul | components/identity/identity.cpp:12 | the C string ends at the first NUL whatever follows |
| Identity.CStringWithoutNul | components/identity/identity.cpp:12 | a buffer without NUL is read whole |
| Inputs.NextCursor | components/panel_input/panel_input.cpp:64 | with at most 256 scenes the `uint8_t` cursor stays below the scene count and moves to the next scene, wrapping to 0 after the last |
| Inputs.AdvanceIsRoundRobin | components/panel_input/panel_input.cpp:59-64 | after k triggers from cursor i the cursor is (i + k) mod n: scenes are run round-robin |
| Inputs.NextCursorOfRemainder | components/panel_input/panel_input.cpp:64 | one trigger from position a mod n lands on (a + 1) mod n |
| Inputs.CursorWrapsPast255 | components/iinput/iinput.h:27 | with more than 256 scenes the 8-bit cursor wraps from 255 to 0, so scenes 256 and above are never reached |
| DeviceBase.PropagationLog.constructor | components/relay_out/relay_out.cpp:26-27 | the record of link and repel requests starts empty |
| DeviceBase.PropagationLog.Record | components/relay_out/relay_out.cpp:26-27 | one request is appended to the record |
| DeviceBase.PropagationLog.RecordSwitch | components/relay_out/relay_out.cpp:22-35 | an open or a close appends exactly its propagation requests |
| DeviceBase.CarriedSpec | components/idevice/idevice.cpp:5-14 | a device without a carried state leaves the room states alone; otherwise its state is present iff the device is on, no other state changes, and no state is duplicated |
| DeviceBase.CarriedTwiceIsOnce | components/idevice/idevice.cpp:5-14 | switching on twice leaves a single copy of the carried state |
| DeviceBase.ChangeState | components/idevice/idevice.cpp:5-14 | the room state array becomes Carried of the old array, keeping it free of duplicates |
| DeviceBase.IndicatedBits | components/panel_input/panel_input.cpp:250-259 | after walking the associated buttons, each backlight bit of a panel is on or off as the last button naming it says, and unchanged if none names it |
| DeviceBase.QueuedPanels | components/panel_input/panel_input.cpp:250-259 | the walk queues a publish for exactly the panels that have an existing associated button, and keeps the indicator queue balanced |
| DeviceBase.QueuedPublishes | components/panel_input/panel_input.cpp:250-259 | from a queue whose closures match its keys, the walk queues a panel's publish exactly when it was queued already or an associated button names that panel |
| DeviceBase.FlushedPanels | components/curtain/curtain.cpp:219-227 | a run of walk-and-flush calls publishes a panel exactly when one of the calls names a button of it, or it was queued before the first call |
| DeviceBase.IndicateOne | components/relay_out/relay_out.cpp:44-48 | one associated button: the panel's backlight bit and the indicator queue advance by one step of the walk |
| DeviceBase.IndicateButtons | components/relay_out/relay_out.cpp:43-49 | every panel's backlight byte and the indicator queue become what the walk over all associated buttons gives |
| DeviceBase.SwitchTargetSpec | components/relay_out/relay_out.cpp:7-20 | "开"/"打开" switch on, "关"/"关闭" switch off, "反转" goes to the opposite of the reported state, and every other operation does nothing |
| DeviceBase.Propagated | components/relay_out/relay_out.cpp:22-35 | opening asks the linked devices to follow with "开" and closes repelled devices; closing asks them to follow with "关" and closes nothing |
| DeviceBase.IndicateAndCarry | components/relay_out/relay_out.cpp:24-25 | the backlights and queue follow the walk over the associated buttons and the room states follow the carried state |
| DeviceBase.ShowAndFlush | components/curtain/curtain.cpp:219-227 | the backlights show the walk appended to all earlier ones, the indicator queue is flushed empty, and the closures run are those queued before followed by the walk's new ones (Flushed) |
| RelayOut.SingleRelayDevice.constructor | components/relay_out/relay_out.h:9-12 | the device keeps the low eight bits of its id, as `IDevice`'s `uint8_t` field does, and its kind, name, carried state and channel, and starts with no associated buttons |
| RelayOut.SingleRelayDevice.AddAssBtn | components/relay_out/relay_out.h:15 | the pair is appended to the associated buttons |
| RelayOut.SingleRelayDevice.Switch | components/relay_out/relay_out.cpp:22-35 | one relay-control frame for the channel is sent to the board, backlights and room states follow, and the link and repel requests of an open or close are recorded |
| RelayOut.SingleRelayDevice.Execute | components/relay_out/relay_out.cpp:7-20 | the relay switches to SwitchTarget of the operation and the reported state, and nothing happens when that is none |
| RelayOut.SingleRelayDevice.SyncAssBtnToDevState | components/relay_out/relay_out.cpp:37-39 | the associated backlights are set to the reported relay state |
| DryContactOut.DryContactOut.constructor | components/drycontact_out/drycontact_out.h:8-19 | the output keeps the low eight bits of its id and its name, carried state and channel, has no associated buttons and starts off |
| DryContactOut.DryContactOut.AddAssBtn | components/drycontact_out/drycontact_out.h:12 | the pair is appended to the associated buttons |
| DryContactOut.DryContactOut.Switch | components/drycontact_out/drycontact_out.cpp:23-38 | one dry-contact frame for the channel is sent, the remembered state becomes the target, backlights and room states follow, and the link and repel requests are recorded |
| DryContactOut.DryContactOut.Execute | components/drycontact_out/drycontact_out.cpp:8-21 | the output switches to SwitchTarget of the operation and the remembered state, and nothing changes when that is none |
| DryContactOut.FlipTwiceRestores | components/drycontact_out/drycontact_out.cpp:14-19 | two "反转" operations return the output to where it was |
| BoardOutput.CommandFor | components/board_output/board_output.cpp:15-20 | dry-contact channels use the dry-contact command and every other type the relay command |
| BoardOutput.SwitchFramesDiffer | components/board_output/board_output.cpp:8-48 | closing and opening frames differ only in the first parameter (1 vs 0), address the channel's board and channel, and are accepted by the frame checker |
| BoardOutput.RelayChannelMatchesRelayDevices | components/board_output/board_output.cpp:15-23 | on board 0 a relay or light-modulator channel is switched with the same frame a relay device sends |
| BoardOutput.BoardOutput.constructor | components/board_output/board_output.h:13-26 | a channel keeps its board, type, channel and uid and starts disconnected |
| BoardOutput.BoardOutput.Connect | components/board_output/board_output.cpp:8-27 | the closing frame is sent and the channel is recorded as connected |
| BoardOutput.BoardOutput.Disconnect | components/board_output/board_output.cpp:29-48 | the opening frame is sent and the channel is recorded as disconnected |
| Lamp.LampAcceptsLongFormsOnly | components/lamp/lamp.cpp:37-58 | a lamp obeys every operation a relay obeys except the short spellings "开"/"关", which it ignores |
| Lamp.Lamp.constructor | components/lamp/lamp.h:13-14 | the lamp keeps the low eight bits of its id and its name, carried state and channel, has no associated buttons and starts off |
| Lamp.Lamp.AddAssBtn | components/relay_out/relay_out.h:15 | the pair is appended to the associated buttons |
| Lamp.Lamp.Switch | components/lamp/lamp.cpp:14-35 | one relay frame with parameter 1 or 0 is sent, the remembered state becomes the target, backlights and the carried room state follow, and nothing is propagated |
| Lamp.Lamp.Execute | components/lamp/lamp.cpp:37-58 | the lamp switches to LampTarget of the operation and the remembered state, and nothing changes when that is none |
| Bgm.ToggleSendsOpposite | components/bgm/bgm.cpp:32-37 | "反转模式" sends the Bluetooth-close command in Bluetooth mode and the Bluetooth-open command in TF mode |
| Bgm.OnlyToggleReadsMode | components/bgm/bgm.cpp:8-39 | every other operation sends the same frame in either mode |
| Bgm.UnknownSendsNothing | components/bgm/bgm.cpp:8-39 | an operation sends a frame iff it is one of the twelve named operations |
| Bgm.TransportFramesCarryTheirCode | components/bgm/bgm.cpp:14-31 | each transport operation sends the BGM_CON byte with its own code in the last parameter |
| Bgm.DistinctCodesDistinctFrames | components/bgm/bgm.cpp:14-31 | with distinct codes, two different transport operations never send the same frame |
| Bgm.Bgm.constructor | components/bgm/bgm.h:11-20 | the player keeps the low eight bits of its id and its name, carried state and codes, starts in TF mode and has no buttons |
| Bgm.Bgm.AddAssBtn | components/bgm/bgm.h:15 | the pair is appended to the associated buttons |
| Bgm.Bgm.Execute | components/bgm/bgm.cpp:8-39 | the operation's frame, if it has one, is queued on the RS485 bus and nothing else changes |
| Bgm.Bgm.SyncAssBtnToDevState | components/bgm/bgm.cpp:41-43 | the associated backlights show whether Bluetooth mode is on |
| Bgm.Bgm.ChangeMode | components/bgm/bgm.cpp:45-48 | the reported mode is recorded and the backlights are resynchronised to it |
| VoiceCommand.VoiceCommand.constructor | components/voice_command/voice_command.h:12-15 | the command keeps its id, name and tags, keeps the low byte of each pair of its parsed hex phrase code (the `uint8_t` store), and starts at scene 0 |
| VoiceCommand.VoiceCommand.Execute | components/voice_command/voice_command.cpp:13-31 | a sleeping room is woken onto the alive heartbeat and is awake afterwards; the scene under the cursor is requested and the cursor advances round-robin; with no scene under the cursor nothing runs |
| ActionGroups.ActiveRunRefusesRequests | components/action_group/action_group.cpp:46-49 | while a run is active any request changes nothing, so two requests start at most one run |
| ActionGroups.SecondRequestRefused | components/action_group/action_group.cpp:46-86 | from idle a successful request is running, and a second request is then refused |
| ActionGroups.FailedSpawnIsRetried | components/action_group/action_group.cpp:82-86 | a failed task creation leaves no run behind, so the next request is accepted |
| ActionGroups.ModeSwitching | components/action_group/action_group.cpp:51-61 | a non-empty mode name that differs from the current mode becomes the mode and asks for a report; an empty or equal name leaves both alone |
| ActionGroups.ActionGroup.constructor | components/action_group/action_group.h:23-24 | the scene keeps its id, name, mode flag and actions, with no run and no report pending |
| ActionGroups.ActionGroup.ExecuteAllAtomicAction | components/action_group/action_group.cpp:42-87 | run flag, report flag and mode name become Requested of the old ones |
| ActionGroups.ActionGroup.Finish | components/action_group/action_group.cpp:13-40 | the indicator queue is flushed once, the report request is dropped and the run ends |
| ActionGroups.ActionGroup.Suicide | components/action_group/action_group.cpp:93-101 | the indicator queue is always flushed and any active run ends |
| Commons.GetCurrentTimestamp | components/commons/commons.cpp:89-98 | a clock reading before 2021-01-01 gives 0, any later reading is returned unchanged |
| Commons.TimestampKnownIffSynced | components/commons/commons.cpp:89-98 | the timestamp is non-zero iff the clock has been synchronised |
| Commons.StoiPair | components/commons/commons.cpp:174-176 | two hex digits give their byte value; a pair starting with anything other than a hex digit, white space or a sign fails; every value lies in -15..255 |
| Commons.ParseHexToArray | components/commons/commons.cpp:164-188 | the loop returns HexToArray of the string |
| Commons.PairsStayFailed | components/commons/commons.cpp:178-184 | once one pair fails, every longer prefix fails too |
| Commons.PairsOfHexDigits | components/commons/commons.cpp:173-177 | a run of hex digits parses pair by pair into the byte values |
| Commons.HexDigitsParse | components/commons/commons.cpp:164-188 | an even-length hex string gives one byte per pair, each the value of its two digits |
| Commons.OddLengthIsEmpty | components/commons/commons.cpp:168-171 | an odd-length string gives the empty array |
| Commons.BadPairEmptiesAll | components/commons/commons.cpp:178-184 | one unparsable pair empties the whole result, not just the tail |
| Commons.DigitRun | components/air_conditioner/air_conditioner.cpp:131 | the digit run is the longest prefix of decimal digits |
| Commons.ScanDigits | components/air_conditioner/air_conditioner.cpp:131 | a scan that succeeds consumes at least one and at most all characters |
| Commons.ScanSigned | components/air_conditioner/air_conditioner.cpp:131 | a successful signed scan consumes at least one character and yields a value within the 32-bit int range |
| Commons.ScanInt | components/air_conditioner/air_conditioner.cpp:131 | a successful integer conversion consumes at least one character and yields a 32-bit int |
| Commons.DigitRunStops | components/air_conditioner/air_conditioner.cpp:131 | a digit run ends exactly where the digits end |
| Commons.ScanDigitsReads | components/air_conditioner/air_conditioner.cpp:131 | digits followed by a non-digit are read as their decimal value |
| Commons.ScanSignedReadsDigits | components/air_conditioner/air_conditioner.cpp:131 | unsigned digits within the int range are read as their value |
| Commons.ScanSignedReadsNegative | components/air_conditioner/air_conditioner.cpp:131 | a minus sign followed by digits is read as the negated value |
| Commons.ScanSignedMinus | components/air_conditioner/air_conditioner.cpp:131 | a minus sign negates the digit scan that follows it and counts one more character |
| Bytes.SumAppend | components/rs485_comm/rs485_comm.cpp:179-185 | the byte sum of a concatenation is the sum of the parts |
| Bytes.ChecksumStep | components/rs485_comm/rs485_comm.cpp:181-183 | adding one byte to the 8-bit checksum is the wrapped sum with that byte |
| Bytes.WithBit | components/panel_input/panel_input.cpp:160-168 | setting or clearing one backlight bit changes that bit only, and a bit position of 8 or more changes nothing |
| Bytes.OtherBitKept | components/panel_input/panel_input.cpp:163-165 | or-ing or and-not-ing one mask leaves every other bit as it was |
| Stm32Frames.ToBytes | components/stm32_comm/stm32_comm_types.h:24-33 | a frame is laid out as eight bytes |
| Stm32Frames.FromBytes | components/stm32_comm/stm32_comm_types.h:24-33 | reading eight bytes as a frame and laying it out again gives the same bytes |
| Stm32Frames.BytesRoundTrip | components/stm32_comm/stm32_comm_types.h:24-33 | laying out a frame and reading it back gives the same frame |
| Stm32Frames.FrameChecksum | components/stm32_comm/stm32_comm_types.h:37-47 | the checksum is the 8-bit sum of the first six bytes |
| Stm32Frames.ChecksumIgnoresTrailer | components/stm32_comm/stm32_comm_types.h:37-47 | the checksum does not depend on the checksum and footer bytes themselves |
| Stm32Frames.Built | components/stm32_comm/stm32_tx.cpp:9-18 | a built frame has the fixed header and footer, the given command, board, channel and parameters, and a checksum the checker accepts |
| Stm32Frames.BuiltInjective | components/stm32_comm/stm32_tx.cpp:9-18 | two built frames are equal only if all five fields are |
| Stm32Frames.UartFrame.BuildFrame | components/stm32_comm/stm32_tx.cpp:9-18 | the frame buffer holds Built of the arguments |
| Stm32Frames.Stm32Port.constructor | components/stm32_comm/stm32_tx.cpp:21-36 | nothing has been sent yet |
| Stm32Frames.Stm32Port.SendFrame | components/stm32_comm/stm32_tx.cpp:21-36 | the frame's value is appended to what the board has been sent |
| Stm32Frames.Stm32Port.SendStm32Cmd | components/lamp/lamp.cpp:17 | one built frame with the given fields is sent |
| Stm32Frames.Stm32Port.ControlRelay | components/relay_out/relay_out.cpp:23 | one relay-control frame for board 0 with parameter 1 for on and 0 for off is sent |
| Stm32Frames.Stm32Port.ControlDrycontactOut | components/drycontact_out/drycontact_out.cpp:24 | one dry-contact-control frame for board 0 with parameter 1 for on and 0 for off is sent |
| Stm32Rx.Next | components/stm32_comm/stm32_rx.cpp:154-176 | one byte keeps the receiver well formed: waiting with nothing, or collecting a header and fewer than eight bytes |
| Stm32Rx.Completed | components/stm32_comm/stm32_rx.cpp:165-173 | a frame handed on is exactly the eight bytes received |
| Stm32Rx.Final | components/stm32_comm/stm32_rx.cpp:150-180 | any run of bytes keeps the receiver well formed |
| Stm32Rx.RunSnoc | components/stm32_comm/stm32_rx.cpp:150-180 | running one more byte is one more step after the run so far |
| Stm32Rx.RunAppend | components/stm32_comm/stm32_rx.cpp:150-180 | running two pieces one after the other is running their concatenation, with the frames of both in order |
| Stm32Rx.NoiseIsDropped | components/stm32_comm/stm32_rx.cpp:155-161 | while waiting, bytes other than the header are dropped without a trace |
| Stm32Rx.Collecting | components/stm32_comm/stm32_rx.cpp:155-175 | after a header and up to six more bytes the task is collecting exactly those bytes and has handled nothing |
| Stm32Rx.HeaderStarts | components/stm32_comm/stm32_rx.cpp:156-160 | a header byte starts a frame and hands nothing on |
| Stm32Rx.CollectingStep | components/stm32_comm/stm32_rx.cpp:163-165 | a byte that does not complete the frame is stored and hands nothing on |
| Stm32Rx.EightBytesMakeAFrame | components/stm32_comm/stm32_rx.cpp:163-174 | eight bytes starting with the header are read as one frame and the task waits again |
| Stm32Rx.FrameIsAssembled | components/stm32_comm/stm32_rx.cpp:165-173 | a frame's eight bytes are handed on iff the footer and checksum are right, and the task waits again either way |
| Stm32Rx.BuiltFrameGetsThrough | components/stm32_comm/stm32_rx.cpp:150-180 | after junk holding no header byte, a frame the transmit side builds reaches the handler intact and alone |
| Stm32Rx.CorruptFrameIsDropped | components/stm32_comm/stm32_rx.cpp:167-173 | a frame with a wrong footer or checksum is dropped and the task waits for the next header |
| Stm32Rx.TruncatedFrameSwallowsTheNext | components/stm32_comm/stm32_rx.cpp:163-175 | a frame cut short after two bytes swallows the first six bytes of the next sound frame, so neither is handled |
| Stm32Rx.MergedFrameIsDropped | components/stm32_comm/stm32_rx.cpp:163-175 | the merged eight bytes of a cut frame and the next one fail the footer check |
| Stm32Rx.Stm32Receiver.constructor | components/stm32_comm/stm32_rx.cpp:139-147 | the task starts waiting for a header |
| Stm32Rx.Stm32Receiver.Feed | components/stm32_comm/stm32_rx.cpp:152-176 | the buffer, flag and index move as one step of the state machine, and the frame handled is the step's output |
| Stm32Rx.Stm32Receiver.Receive | components/stm32_comm/stm32_rx.cpp:150-180 | after reading the bytes the state is the run's final state and the frames handled are the run's frames |
| Stm32Rx.ReactedAll | components/stm32_comm/stm32_rx.cpp:88-115 | the inputs react in order, each seeing the context the ones before left, and every input keeps its place in the result |
| Stm32Rx.FoldNext | components/stm32_comm/stm32_rx.cpp:88-115 | reacting with a prefix one longer is one more reaction, in the context the shorter prefix left |
| Stm32Rx.UnreachedUnchanged | components/stm32_comm/stm32_rx.cpp:88-115 | an input the report or expiry does not reach keeps its view |
| Stm32Rx.WokenTwice | components/channel_input/channel_input.cpp:13-20 | waking a room that is already awake changes nothing |
| Stm32Rx.WakesIffExecuted | components/stm32_comm/stm32_rx.cpp:88-115 | the room wakes exactly when some input's execute runs; presence sensors never wake it |
| Stm32Rx.AnyKeyUsedOnce | components/stm32_comm/stm32_rx.cpp:88-115 | an armed "any key" scene stays armed exactly when no input would hand it the trigger, so it is used at most once |
| Stm32Rx.ScenesStepWithoutAnyKey | components/stm32_comm/stm32_rx.cpp:88-115 | with no "any key" scene armed, every input whose handler runs a scene steps its cursor round-robin |
| Stm32Rx.InputObjectsApart | components/stm32_comm/stm32_rx.cpp:88-115 | what the inputs' handlers change is disjoint from the lord, its context, the room states and the curtains |
| Stm32Rx.AnyCurtainMoving | components/stm32_comm/stm32_rx.cpp:101-108 | true iff some registered curtain is opening or closing |
| Stm32Rx.CurtainIsMoving | components/stm32_comm/stm32_rx.cpp:101-108 | the scan over the lord's devices agrees with CurtainsMoving |
| Stm32Rx.RunInput | components/stm32_comm/stm32_rx.cpp:89-114 | a level input runs iff the reported level is its own; a presence sensor hears the report iff no curtain is moving; the input and the context move as its reaction in the fold says, and every other input keeps its view |
| Stm32Rx.PartwayStart | components/stm32_comm/stm32_rx.cpp:88 | before the loop nothing has reacted and every input holds its view |
| Stm32Rx.PartwayDone | components/stm32_comm/stm32_rx.cpp:115 | after the loop every input holds the view the fold gave it |
| Stm32Rx.RunNext | components/stm32_comm/stm32_rx.cpp:89-114 | one turn of the loop: the next input reacts as the fold says and every other registered input keeps its view |
| Stm32Rx.RunInputs | components/stm32_comm/stm32_rx.cpp:88-115 | the channel's inputs and the context end as the fold of their reactions to the report, in the registry's order, and inputs of other channels are untouched |
| Stm32Rx.RunChannel | components/stm32_comm/stm32_rx.cpp:88-115 | the outcome records the inputs and their views before the run, and they end as the fold says |
| Stm32Rx.DoorChanged | components/stm32_comm/stm32_rx.cpp:63-79 | a non-zero level records a door close and zero an open; a wake-up report is made exactly when the report is not nested and the card-slot channel is an infrared one, and it names that channel; the context, every input's view and the moving curtains are left as they were |
| Stm32Rx.WakeStep | components/stm32_comm/stm32_rx.cpp:63-77 | a report makes a wake-up report exactly when the first input of its channel is an admitted door contact and the card-slot channel is an infrared one, and it names that channel |
| Stm32Rx.WakeChainAsWritten | components/stm32_comm/stm32_rx.cpp:63-77 | as written, each level of re-entry adds at most one wake-up report, always on the card-slot channel |
| Stm32Rx.WakeChainUnboundedAsWritten | components/stm32_comm/stm32_rx.cpp:63-77 | as written, once a wake-up report lands on a channel that itself wakes, the chain reaches every depth: the recursion does not end |
| Stm32Rx.DoorOnSensorChannelLoopsAsWritten | components/stm32_comm/stm32_rx.cpp:63-77 | a door contact and an infrared card-slot sensor on the same channel make the wake-up chain unbounded |
| Stm32Rx.WakeChainCut | components/stm32_comm/stm32_rx.cpp:63-77 | the model's rule makes at most one wake-up report, the first of the chain as written |
| Stm32Rx.HandleDryContact | components/stm32_comm/stm32_rx.cpp:35-117 | test mode echoes the report to the same relay channel and nothing else; otherwise the report is handled as AdmitReport says, including the account of a door's wake-up run (WakeAccounted) |
| Stm32Rx.AdmitReport | components/stm32_comm/stm32_rx.cpp:41-117 | an unconfigured channel and a card-out refusal change nothing, a doorbell under "勿扰" changes nothing, and a run acts on every input of the channel as the fold says; where a door woke the card-slot channel, that level-0 run started from the old views and context, ran every input on the card-slot channel, and the door channel's run starts from the state it left (WakeAccounted) |
| Stm32Rx.ActOnInputs | components/stm32_comm/stm32_rx.cpp:62-115 | with a usable channel, a doorbell under "勿扰" changes nothing and otherwise the door is recorded and the channel's inputs act from the old views, or, after a door's wake-up run, from the views and context that run left (WakeAccounted) |
| Stm32Rx.MoveDoor | components/stm32_comm/stm32_rx.cpp:63-79 | a close records the close time, an open the open time; exactly when the report is not nested and the card-slot channel is infrared, that channel gets a level-0 wake-up report, returned as `woken`, which runs its inputs as the fold says from the old views and context; the registries, the board and every other channel are untouched |
| Stm32Rx.DoorReport | components/stm32_comm/stm32_rx.cpp:63-115 | the door moves, the card-slot sensor hears of it through the wake-up run, then the door channel's own inputs run as the fold says from the views and context that run left (WakeAccounted); without a wake they start from the old ones |
| Stm32Rx.HandleResponse | components/stm32_comm/stm32_rx.cpp:23-134 | a relay report records the relay state, a dry-contact report is handled as HandleDryContact says, and every other command changes nothing |
| Stm32Rx.ServeByte | components/stm32_comm/stm32_rx.cpp:152-176 | one byte advances the receiver by one step and extends the run's frames by the one handled |
| Stm32Rx.Serve | components/stm32_comm/stm32_rx.cpp:137-181 | the frames handled over a read are exactly the frames the state machine hands on, in order |
| Rs485Frames.CalculateChecksum | components/rs485_comm/rs485_comm.cpp:179-185 | the loop's 8-bit sum is the checksum of the first six bytes |
| Rs485Frames.ResponseFrame | components/rs485_comm/rs485_comm.cpp:454-468 | a response frame is eight bytes: header, the five parameters in order, a checksum the receiver accepts, footer |
| Rs485Frames.ResponseFrameInjective | components/rs485_comm/rs485_comm.cpp:454-468 | two different parameter lists never give the same frame |
| Rs485Frames.Truncated | components/rs485_comm/rs485_comm.cpp:161-169 | a queued command keeps at most eight bytes, taken from the front, and a short command whole |
| Rs485Frames.Rs485Port.constructor | components/rs485_comm/rs485_comm.cpp:61 | the send queue starts empty |
| Rs485Frames.Rs485Port.SendRs485Cmd | components/rs485_comm/rs485_comm.cpp:161-173 | the command, truncated to eight bytes, is appended to the send queue |
| Rs485Frames.Rs485Port.GenerateResponse | components/rs485_comm/rs485_comm.cpp:454-468 | the response frame of the five parameters is appended to the send queue |
| Rs485Session.AckOf | components/rs485_comm/rs485_comm.cpp:275 | the acknowledgement of packet n of a transfer is 0x90 + n for the SSID and 0xA0 + n for the password |
| Rs485Session.PacketOf | components/rs485_comm/rs485_comm.cpp:248-288 | a packet is the packet number in byte 2 and the three data bytes 3..5 |
| Rs485Session.Payload | components/rs485_comm/rs485_comm.cpp:279-288 | the bytes taken from a packet are those before the first 0xFF, fewer than three exactly when the packet holds the terminator |
| Rs485Session.Stored | components/rs485_comm/rs485_comm.cpp:285-287 | copying never fills the buffer's last slot, and bytes that fit are stored whole |
| Rs485Session.CText | components/rs485_comm/rs485_comm.cpp:291-295 | the saved string is the buffer before its first NUL, and a NUL-free buffer whole |
| Rs485Session.Step | components/rs485_comm/rs485_comm.cpp:247-298 | a non-first packet with no session open is ignored; an out-of-order packet drops the session; an accepted packet moves the expected number on and closes the session iff it holds the terminator; the start time is reset by a first packet |
| Rs485Session.Acks | components/rs485_comm/rs485_comm.cpp:274-275 | an accepted packet draws exactly one acknowledgement and any other packet none |
| Rs485Session.Saved | components/rs485_comm/rs485_comm.cpp:290-296 | a string is saved iff an accepted packet holds the terminator; it contains no NUL and fits the buffer |
| Rs485Session.Tick | components/rs485_comm/rs485_comm.cpp:536-548 | one pass of the timeout task either keeps the session or drops it, and keeps the expected number and start time |
| Rs485Session.Ticked | components/rs485_comm/rs485_comm.cpp:531-552 | passes of the timeout task keep the session well formed |
| Rs485Session.Deliver | components/rs485_comm/rs485_comm.cpp:247-298 | a delivery keeps the session well formed |
| Rs485Session.Final | components/rs485_comm/rs485_comm.cpp:247-298 | a run of deliveries keeps the session well formed |
| Rs485Session.TickedDrops | components/rs485_comm/rs485_comm.cpp:536-541 | passes of the timeout task drop an open session iff one of them comes more than two seconds after its start |
| Rs485Session.IgnoredRun | components/rs485_comm/rs485_comm.cpp:251-255 | with no session open, packets that do not open one change nothing and save nothing |
| Rs485Session.ChunkPacket | rs485_oracle.py:65-83 | every packet of a transfer carries a number the dispatcher hands to that transfer |
| Rs485Session.FullPacket | rs485_oracle.py:65-83 | a packet before the end carries three bytes of the string and no terminator |
| Rs485Session.LastPacket | rs485_oracle.py:65-83 | the last packet carries the rest of the string and the terminator |
| Rs485Session.QuietTicks | components/rs485_comm/rs485_comm.cpp:536-548 | passes that all come within two seconds of the start leave the session alone |
| Rs485Session.AcceptFull | components/rs485_comm/rs485_comm.cpp:247-298 | a full packet delivered in order stores three more bytes, expects the next number and saves nothing |
| Rs485Session.AcceptLast | components/rs485_comm/rs485_comm.cpp:247-298 | the packet holding the end, delivered in order, saves the whole string and closes the session |
| Rs485Session.Delivered | components/rs485_comm/rs485_comm.cpp:247-298 | when the packets of a string arrive in order and no timeout intervenes, the string is saved exactly once and the session is closed |
| Rs485Session.PacedQuiet | components/rs485_comm/rs485_comm.cpp:536-548 | when each pass comes within two seconds of the packet before it, the corrected rule never drops the session |
| Rs485Session.PacedIsDelivered | components/rs485_comm/rs485_comm.cpp:247-347 | under the corrected rule every paced transfer saves its string |
| Rs485Session.ToolSchedule | rs485_oracle.py:65-83 | the tool's packets carry the string in order, one every 300 ms, each after the passes of the timeout task that fall since the packet before it |
| Rs485Session.TickIn | components/rs485_comm/rs485_comm.cpp:550 | a window of at most 300 ms holds the pass on the task's 500 ms grid of the given phase when one falls in it, and no other |
| Rs485Session.ToolScheduleIsPaced | rs485_oracle.py:65-83 | the tool's 300 ms pace keeps every pass within two seconds of the packet before it |
| Rs485Session.ToolTicksBefore | components/rs485_comm/rs485_comm.cpp:550 | the passes before packet i come on the grid of the phase, after packet i - 1 and no later than 300 ms times i |
| Rs485Session.FirstLate | components/rs485_comm/rs485_comm.cpp:536-541 | the first pass on the grid that finds a session opened by the first packet older than two seconds; every earlier pass is within the two seconds |
| Rs485Session.LateIndex | components/rs485_comm/rs485_comm.cpp:536-541 | that pass comes before the seventh, eighth or ninth packet after the first, depending on the phase |
| Rs485Session.QuietSince | components/rs485_comm/rs485_comm.cpp:536-548 | under the rule as written, deliveries whose passes all meet the start keep the session alive |
| Rs485Session.ShortTransferSurvives | components/rs485_comm/rs485_comm.cpp:261 | as written, a string of up to 20 bytes sent at the tool's pace is saved whatever the phase of the timeout task |
| Rs485Session.EarlyTicksQuiet | components/rs485_comm/rs485_comm.cpp:536 | the passes before any packet ahead of the late pass all come within two seconds of the first packet, for every phase |
| Rs485Session.SavedBeforeLate | components/rs485_comm/rs485_comm.cpp:247-298 | as written, a string whose last packet comes before the late pass is saved |
| Rs485Session.LateDrop | components/rs485_comm/rs485_comm.cpp:536-541 | a pass more than two seconds after the start drops the session and the later packets save nothing |
| Rs485Session.LateSchedule | components/rs485_comm/rs485_comm.cpp:536-541 | as written, once the late pass drops the session, the rest of the transfer saves nothing |
| Rs485Session.LostFromLate | components/rs485_comm/rs485_comm.cpp:536-541 | as written, a string whose last packet comes after the late pass is never saved |
| Rs485Session.ToolTransferAsWritten | components/rs485_comm/rs485_comm.cpp:261 | as written, the tool's transfer is saved exactly when its last packet comes before the first pass later than two seconds, for every phase |
| Rs485Session.AlignedTransferSurvives | components/rs485_comm/rs485_comm.cpp:261 | with the task's passes lined up on the first packet, a string of up to 26 bytes is saved |
| Rs485Session.MidTransferLostOffGrid | components/rs485_comm/rs485_comm.cpp:261 | with the passes 100 ms after the first packet, a string of 21 bytes or more is lost |
| Rs485Session.LongTransferLost | components/rs485_comm/rs485_comm.cpp:261 | as written, a string of 27 bytes or more sent at the tool's pace is lost whatever the phase |
| Rs485Session.ToolTransferDelivered | components/rs485_comm/rs485_comm.cpp:261 | with the start time taken at every accepted packet, every string the tool sends is saved, for every phase |
| Rs485Session.StoredExtends | components/rs485_comm/rs485_comm.cpp:285-287 | copying keeps what the buffer held and adds a prefix of the data |
| Rs485Session.StoredSnoc | components/rs485_comm/rs485_comm.cpp:279-288 | copying byte by byte is copying all at once |
| Rs485Session.PayloadBefore | components/rs485_comm/rs485_comm.cpp:279-283 | the payload is what comes before the first terminator |
| Rs485Session.CTextIsPrefix | components/rs485_comm/rs485_comm.cpp:291 | the saved string is a prefix of the buffer |
| Rs485Session.ChunkReceiver.constructor | components/rs485_comm/rs485_comm.cpp:29-40 | the statics start zeroed with no session open |
| Rs485Session.ChunkReceiver.Clear | components/rs485_comm/rs485_comm.cpp:260 | the buffer is all zero |
| Rs485Session.ChunkReceiver.Drop | components/rs485_comm/rs485_comm.cpp:268-270 | the session is dropped: flag down, offset zero, buffer cleared |
| Rs485Session.ChunkReceiver.OnPacket | components/rs485_comm/rs485_comm.cpp:247-347 | the statics move as Step says, an accepted packet is acknowledged on the bus, and a completed string is returned for saving |
| Rs485Session.ChunkReceiver.CopyPayload | components/rs485_comm/rs485_comm.cpp:279-288 | the payload's bytes go into the buffer while they fit, and the result says whether the terminator came |
| Rs485Session.ChunkReceiver.TimeoutCheck | components/rs485_comm/rs485_comm.cpp:536-548 | the statics move as Tick says |
| Rs485Comm.Next | components/rs485_comm/rs485_comm.cpp:132-152 | one byte keeps the receive task well formed: waiting with nothing, or collecting a header and fewer than eight bytes |
| Rs485Comm.Out | components/rs485_comm/rs485_comm.cpp:145-148 | a frame handed on has the header in front and the footer last |
| Rs485Comm.Final | components/rs485_comm/rs485_comm.cpp:128-156 | any run of bytes keeps the receive task well formed |
| Rs485Comm.RunSnoc | components/rs485_comm/rs485_comm.cpp:128-156 | running one more byte is one more step after the run so far |
| Rs485Comm.RunAppend | components/rs485_comm/rs485_comm.cpp:128-156 | running two pieces one after the other is running their concatenation, with the frames of both in order |
| Rs485Comm.NoiseIsDropped | components/rs485_comm/rs485_comm.cpp:133-141 | while waiting, bytes other than the header are dropped without a trace |
| Rs485Comm.Collecting | components/rs485_comm/rs485_comm.cpp:133-151 | after a header and up to six more bytes the task is collecting exactly those bytes and has handed nothing on |
| Rs485Comm.EightBytesMakeAFrame | components/rs485_comm/rs485_comm.cpp:143-150 | eight bytes starting with the header are handed on iff the last is the footer, and the task waits again |
| Rs485Comm.ResponseGetsThrough | components/rs485_comm/rs485_comm.cpp:117-158 | after junk holding no header byte, a frame built by generate_response reaches the handler intact and alone and passes its checksum test |
| Rs485Comm.Rs485Receiver.constructor | components/rs485_comm/rs485_comm.cpp:118-126 | the receive task starts waiting for a header |
| Rs485Comm.Rs485Receiver.Feed | components/rs485_comm/rs485_comm.cpp:130-152 | the buffer, flag and index move as one step of the state machine, and the frame handed on is the step's output |
| Rs485Comm.Rs485Receiver.Receive | components/rs485_comm/rs485_comm.cpp:128-156 | after reading the bytes the state is the run's final state and the frames handed on are the run's frames |
| Rs485Comm.RouteOf | components/rs485_comm/rs485_comm.cpp:188-299 | a frame is refused iff its checksum fails; a transfer packet is recognised only in test mode and only with a number in its range; any other oracle frame goes to the command switch |
| Rs485Comm.ModDiffers | components/rs485_comm/rs485_comm.cpp:179-185 | two sums less than 256 apart give different 8-bit checksums |
| Rs485Comm.CorruptedByteIsRejected | components/rs485_comm/rs485_comm.cpp:188-198 | changing any one of the first seven bytes of a sound frame makes the checksum test refuse it |
| Rs485Comm.OracleFrameRoute | components/rs485_comm/rs485_comm.cpp:245-351 | a frame the oracle tool sends is read as its command, or in test mode as a transfer packet when its number lies in a transfer range |
| Rs485Comm.Replies | components/rs485_comm/rs485_comm.cpp:351-450 | a command queues at most one reply frame |
| Rs485Comm.RefusedOutsideTestMode | components/rs485_comm/rs485_comm.cpp:369-448 | outside test mode every command but enter and exit gets one "not in test mode" reply, sends nothing to the board, has no effect and leaves test mode off |
| Rs485Comm.AllControlCoversEveryChannel | components/rs485_comm/rs485_comm.cpp:387-398 | the all-control test sends one frame to each relay 1..25 and then each dry-contact output 1..8 of the board, all to the requested state |
| Rs485Comm.Be32 | components/rs485_comm/rs485_comm.cpp:481-486 | the four bytes shifted out most significant first read back as the value |
| Rs485Comm.Le32 | components/rs485_comm/rs485_comm.cpp:488-493 | the four bytes taken least significant first read back as the value |
| Rs485Comm.StatusFrame | components/rs485_comm/rs485_comm.cpp:506-521 | the status frame is fourteen bytes: header, oracle type, status type, the serial most significant byte first, the IP address in memory order, the network byte, the checksum of the first twelve bytes and the footer |
| Rs485Comm.ReportNetState | components/rs485_comm/rs485_comm.cpp:470-528 | the frame written is the status frame of the serial's number, the IP address and the network |
| Rs485Comm.DeviceObjectsApart | components/rs485_comm/rs485_comm.cpp:211-243 | what a device frame may change is disjoint from this component's state and from the lord |
| Rs485Comm.Rs485Comm.constructor | components/rs485_comm/rs485_comm.cpp:21-40 | the component starts outside test mode with both log switches off and both transfers idle, timed by the given timeout rule (the firmware's is `FromFirstPacket`) |
| Rs485Comm.Rs485Comm.PeriodicOracleTask | components/rs485_comm/rs485_comm.cpp:531-552 | each transfer moves as one pass of the timeout check |
| Rs485Comm.Rs485Comm.OnChunk | components/rs485_comm/rs485_comm.cpp:247-347 | the transfer of the packet's kind steps under the component's timeout rule, the other is untouched, acknowledgements are queued, and a completed credential is reported for saving |
| Rs485Comm.Rs485Comm.AllControl | components/rs485_comm/rs485_comm.cpp:387-398 | the board is sent exactly the all-control frames |
| Rs485Comm.Rs485Comm.OnCommand | components/rs485_comm/rs485_comm.cpp:349-450 | test mode moves as ModeAfter says; the log switches change only on the log command in test mode; replies, board frames and the effect are those of the command; the lord's context and mode are unchanged |
| Rs485Comm.Rs485Comm.OnTestCommand | components/rs485_comm/rs485_comm.cpp:369-440 | in test mode a command other than enter and exit keeps test mode and the timeout task, and queues, sends and requests what the command specifies |
| Rs485Comm.Rs485Comm.SendBoardCommand | components/rs485_comm/rs485_comm.cpp:369-410 | the board is sent exactly the frames of the command |
| Rs485Comm.Rs485Comm.OnNetCommand | components/rs485_comm/rs485_comm.cpp:411-426 | the network command queues its reply and requests a switch to WiFi or Ethernet or the status report, as its parameter says |
| Rs485Comm.Rs485Comm.HandleRs485Data | components/rs485_comm/rs485_comm.cpp:188-452 | a frame whose checksum fails changes nothing; an oracle frame is handled as OnOracle says and a device frame as OnDevice says |
| Rs485Comm.Rs485Comm.OnOracle | components/rs485_comm/rs485_comm.cpp:245-451 | a transfer packet steps only its own transfer, under the component's timeout rule; a command switches the mode, queues its replies, drives the board and reports its effect |
| Rs485Comm.Rs485Comm.OnDevice | components/rs485_comm/rs485_comm.cpp:211-243 | a panel report goes to the named panel, an air-conditioner report updates the matching units, a temperature report sets their room temperature, and nothing else is touched |
| ChannelInput.DayNightSwap | components/channel_input/channel_input.cpp:171-176 | with distinct bounds, swapping day start and night start turns every daytime hour into night and back, including ranges that wrap past midnight |
| ChannelInput.EqualBoundsAreAllDay | components/channel_input/channel_input.cpp:171-176 | equal day and night starts make every hour daytime |
| ChannelInput.UncertainMs | components/channel_input/channel_input.cpp:179-190 | the uncertain timeout in milliseconds: without a synced clock the duration times 1000 kept to 64 bits; with one, that product (doubled at night) kept to 32 bits |
| ChannelInput.NightDoublesTimeout | components/channel_input/channel_input.cpp:179-190 | without a synced clock the timeout is the duration in milliseconds; by night it is twice that, by day once |
| ChannelInput.NightTimeoutCanWrap | components/channel_input/channel_input.cpp:182-188 | a 3000000 s duration wraps to 1705032704 ms at night, shorter than its 3000000000 ms daytime value; without a clock 5000000 s gives 5000000000 ms, unwrapped |
| ChannelInput.Judged | components/channel_input/channel_input.cpp:57-82 | the power is cut exactly when the door is shut, closed after the last presence and no scene ran in the last 10 s; a retry exactly when the door is open or only the recent scene blocks |
| ChannelInput.ExpiryFiresWhenGuardsPass | components/channel_input/channel_input.cpp:41-94 | an expiry runs the timeout scenes exactly when the sensor was uncertain and the guards pass or the channel is not the occupancy channel, and re-arms exactly on a retry; other states are untouched |
| ChannelInput.RetryIsLostAsWritten | components/channel_input/channel_input.cpp:44-82 | as written, a retry re-arms the timer but has already set the sensor idle, so the next expiry does nothing even when the guards then pass |
| ChannelInput.RetryRechecks | components/channel_input/channel_input.cpp:44-82 | corrected, the re-armed expiry is a fresh expiry of an uncertain sensor and cuts the power once the guards pass |
| ChannelInput.ExpiryKeepsTimerInStep | components/channel_input/channel_input.cpp:41-94 | corrected, an expiry leaves the timer armed exactly while the sensor is uncertain; as written a retry leaves an armed timer beside an idle sensor |
| ChannelInput.SensingEffects | components/channel_input/channel_input.cpp:107-155 | a scene runs only on presence while idle; presence is stamped on a 1 outside Active; the timer is armed on a 0 outside Uncertain and stopped on a 1 while Uncertain; readings other than 0 and 1 change nothing |
| ChannelInput.SensingKeepsTimerInStep | components/channel_input/channel_input.cpp:107-155 | every reading keeps the timer armed exactly while the sensor is uncertain |
| ChannelInput.FalseAlarmCancels | components/channel_input/channel_input.cpp:131-153 | absence then presence from Active returns to Active with the timer stopped and no scene run |
| ChannelInput.ChannelInput.constructor | components/channel_input/channel_input.h:12-13 | the input keeps its eight-bit id, kind, name, tags, channel, trigger, duration and scenes, starts idle with the cursor at 0 and no timer running |
| ChannelInput.ChannelInput.RunOwnScene | components/channel_input/channel_input.cpp:34-38 | the scene under the cursor runs and the cursor advances round-robin; without scenes nothing changes |
| ChannelInput.ChannelInput.RunAnyKeyOrOwnScene | components/channel_input/channel_input.cpp:115-121 | an armed any-key scene takes the trigger, is disarmed and leaves the cursor; otherwise the own scene runs round-robin |
| ChannelInput.ChannelInput.Execute | components/channel_input/channel_input.cpp:13-39 | a sleeping room is woken with the alive heartbeat; the any-key scene takes the trigger unless the input ignores it; otherwise the own scene runs round-robin; the mode is untouched when the armed scene is not registered or there is no own scene |
| ChannelInput.ChannelInput.ArmUncertainTimer | components/channel_input/channel_input.cpp:193-196 | the timer runs with the day or night timeout of the current clock |
| ChannelInput.ChannelInput.ExecuteInfrared | components/channel_input/channel_input.cpp:107-155 | the sensor moves as Sensed says, the timer stays in step with it, presence is stamped with the uptime, and a presence while idle requests the armed any-key scene or else the own scene under the cursor, leaving the mode untouched when that scene does not exist; any other step runs no scene |
| ChannelInput.ChannelInput.UncertainTimerFiredAsWritten | components/channel_input/channel_input.cpp:41-94 | the expiry as written: the sensor becomes idle before the guards are checked, and a retry re-arms the timer anyway |
| ChannelInput.ChannelInput.UncertainTimerFired | components/channel_input/channel_input.cpp:41-94 | the corrected expiry: a retry keeps the sensor uncertain, so an armed timer stays in step with the sensor |
| PresenceTimeout.ExpiryKeepsSensors | components/channel_input/channel_input.cpp:87-92 | the timeout inputs run on an expiry leave every sensor's state and timer and the presence time as they were |
| PresenceTimeout.FireInput | components/channel_input/channel_input.cpp:88-92 | on an expiry an input runs its execute exactly when its trigger is the infrared timeout, as its reaction in the fold says; every other input keeps its view |
| PresenceTimeout.FireNext | components/channel_input/channel_input.cpp:88-92 | one turn of the loop over the channel: the next input reacts to the expiry as the fold says |
| PresenceTimeout.FireInputs | components/channel_input/channel_input.cpp:88-92 | the inputs listed end as the fold of their reactions to the expiry, and inputs off the list are untouched |
| PresenceTimeout.FireChannel | components/channel_input/channel_input.cpp:87-92 | the inputs run are exactly the registered inputs on the channel, they end as the fold says, and no sensor state or timer changes |
| PresenceTimeout.FireExpired | components/channel_input/channel_input.cpp:44-92 | after the sensor went idle, the inputs of its channel, the sensor itself among them as idle, react to the expiry as the fold says |
| PresenceTimeout.UncertainTimerCallback | components/channel_input/channel_input.cpp:41-100 | the sensor moves as the expiry as written says; when that expiry fires, every registered input on the sensor's channel, the now idle sensor included, reacts to it as the fold says; when it does not, nothing else changes; other channels are untouched |
| PanelInput.FlagsAfter | components/panel_input/panel_input.cpp:225-245 | after a report each key is flagged as operating exactly when it is held down |
| PanelInput.FiredMembers | components/panel_input/panel_input.cpp:225-242 | the keys fired are exactly the mapped keys held down and not yet operating, in ascending order without repeats |
| PanelInput.ReleaseFiresNothing | components/panel_input/panel_input.cpp:216-219 | a full release (0xFF) fires no key |
| PanelInput.HeldKeysDoNotRefire | components/panel_input/panel_input.cpp:230-241 | a report repeated while the same keys are held fires nothing |
| PanelInput.PressHoldRelease | components/panel_input/panel_input.cpp:211-245 | press, hold and release of key 0 fires it exactly once, and the release clears every flag |
| PanelInput.OnlyKeyZeroFires | components/panel_input/panel_input.cpp:225-242 | with no key operating, the report 0xFE fires key 0 alone when it is mapped and nothing otherwise |
| PanelInput.PanelButtonInput.constructor | components/panel_input/panel_input.h:15-16 | the button keeps its id, name, panel, key, tags and scenes, with the cursor at 0 |
| PanelInput.PanelButtonInput.Execute | components/panel_input/panel_input.cpp:59-65 | the scene under the cursor runs and the cursor advances round-robin; without scenes nothing changes |
| PanelInput.Panel.constructor | components/panel_input/panel_input.h:28-29 | a panel has no buttons, every backlight off and no key operating |
| PanelInput.Panel.AddButton | components/panel_input/panel_input.h:31-35 | a button is added exactly when its key is not taken yet, and a taken key leaves the panel as it was |
| PanelInput.Panel.SwitchReport | components/panel_input/panel_input.cpp:211-248 | the backlight byte is taken as reported, the operating flags become the held keys, exactly the fired keys advance their cursors, and the scenes their buttons name at those cursors start |
| PanelInput.Panel.SceneOfNamed | components/panel_input/panel_input.cpp:59-65 | a fired key asks to run exactly the scene under its button's cursor, and none when the button has no scenes |
| PanelInput.Panel.ScenesOfSnoc | components/panel_input/panel_input.cpp:225-242 | one more fired key adds exactly its own scene to the scenes asked |
| PanelInput.Panel.ScenesOfNamed | components/panel_input/panel_input.cpp:225-242 | a scene is started by a report exactly when one of the fired keys names it at its cursor |
| PanelInput.Panel.ScanKeys | components/panel_input/panel_input.cpp:222-245 | the eight-key scan returns the flags of the held keys and the fired keys, advances exactly their cursors and starts exactly their scenes |
| PanelInput.Panel.ScanKey | components/panel_input/panel_input.cpp:226-242 | one key of the scan: its flag follows the key, it fires exactly when newly held, and the scenes started so far grow by its scene |
| PanelInput.FlagFollowsKey | components/panel_input/panel_input.cpp:226-242 | after key i the flag of key i is set exactly when it is held, and the key fires exactly when it is held and was not operating |
| PanelInput.Panel.FireKey | components/panel_input/panel_input.cpp:232-236 | a fired key's button runs the scene under its cursor and advances it round-robin, and no other cursor moves |
| PanelInput.Panel.ExecuteKey | components/panel_input/panel_input.cpp:59-65 | one key's button executes: its cursor advances round-robin, the scene it named starts, no other cursor moves |
| PanelInput.Panel.PublishBlState | components/panel_input/panel_input.cpp:202-204 | one switch-write response frame carrying the panel id and the backlight byte is queued |
| PanelInput.Panel.UpdateButtonIndicator | components/panel_input/panel_input.cpp:250-259 | for a known key the backlight bit becomes the state and the panel's publish is queued once; an unknown key changes nothing |
| PanelInput.IndicatorTouchesOneKey | components/panel_input/panel_input.cpp:160-168 | setting one backlight bit sets that bit to the state and leaves the other seven |
| Curtain.OpenPublishes | components/curtain/curtain.cpp:64-87 | "开" publishes exactly the panels queued before, the panels an open button names, and, when it reverses a closing curtain, the panels a close button names |
| Curtain.CloseMirrorsOpen | components/curtain/curtain.cpp:64-112 | "关" is "开" with the two directions swapped: the same phase change, relay frames and backlights with open and close exchanged |
| Curtain.OpenPressSequence | components/curtain/curtain.cpp:64-87 | pressing "开" from closed starts the curtain, pressing again stops it, a third press starts it again; the running time then opens it, and "开" on an open curtain leaves it open |
| Curtain.MotorRunsWhileMoving | components/curtain/curtain.cpp:64-216 | after a press a motor runs exactly when the curtain was not already resting at, or moving towards, that end; after completion no motor runs |
| Curtain.Curtain.constructor | components/curtain/curtain.h:15-16 | the curtain keeps the low eight bits of its id and its name, carried state, both channels and running time, starts closed with no buttons, no last action and no task |
| Curtain.Curtain.AddOpenAssBtn | components/curtain/curtain.h:30 | the pair is appended to the open buttons |
| Curtain.Curtain.AddCloseAssBtn | components/curtain/curtain.h:31 | the pair is appended to the close buttons |
| Curtain.Curtain.StartAction | components/curtain/curtain.cpp:152-175 | one relay-on frame for the channel is sent, the curtain takes the new phase with a fresh completion task, the action buttons are lit, and the publishes flushed are Flushed of that one call |
| Curtain.Curtain.StopCurrentAction | components/curtain/curtain.cpp:177-193 | only the relay of the direction in motion is switched off, the curtain stops, the task is cancelled, the action buttons are darkened, and the publishes flushed are Flushed of that one call |
| Curtain.Curtain.HandleOpenAction | components/curtain/curtain.cpp:64-87 | the curtain moves to OpenedFrom of its phase, sends OpenFrames, shows OpenLights, flushes the publishes Flushed gives for OpenLights, and records the opening unless it was already open or opening |
| Curtain.Curtain.HandleCloseAction | components/curtain/curtain.cpp:89-112 | the curtain moves to ClosedFrom of its phase, sends CloseFrames, shows CloseLights, flushes the publishes Flushed gives for CloseLights, and records the closing unless it was already closed or closing |
| Curtain.Curtain.CompleteAction | components/curtain/curtain.cpp:195-216 | a moving curtain rests at the end it was moving to, its relay goes off, the action buttons are darkened with their publishes flushed and the last action is cleared; a resting curtain only loses its task and flushes nothing |
| Curtain.Curtain.Execute | components/curtain/curtain.cpp:9-52 | "开" and "关" drive the curtain and flush as their handlers say; "反转" and any other operation change nothing and flush nothing |
| AirConditioner.ModeToBits | components/air_conditioner/air_conditioner.cpp:508-517 | the mode is sent as two bits other than 2, and reading them back gives the same mode |
| AirConditioner.FanToBits | components/air_conditioner/air_conditioner.cpp:519-529 | the fan speed is sent as two bits, and reading them back gives the same speed |
| AirConditioner.FanCodecIsBijective | components/air_conditioner/air_conditioner.cpp:496-529 | every two-bit fan code reads as a speed that is sent as the same code |
| AirConditioner.ModeBitsTwoReadAsCooling | components/air_conditioner/air_conditioner.cpp:485-494 | the unused mode code 2 is read as cooling and so is sent back as 0 |
| AirConditioner.Decode | components/air_conditioner/air_conditioner.cpp:28-34 | the mode and fan codes are two bits wide and both temperatures lie in 16..31 |
| AirConditioner.SyncDecodesBack | components/air_conditioner/air_conditioner.cpp:162-177 | for temperatures in 16..31 the thermostat decodes from the two sync bytes the same power, mode, fan speed, target and room temperature, whatever the unit id |
| AirConditioner.TargetAboveRangeWraps | components/air_conditioner/air_conditioner.cpp:173 | a target of 32 overflows its nibble and is read back as 16 |
| AirConditioner.FanUp | components/air_conditioner/air_conditioner.cpp:108-113 | "风量加大" raises low to medium and medium to high, keeps high, and leaves automatic alone |
| AirConditioner.FanDown | components/air_conditioner/air_conditioner.cpp:114-119 | "风量减小" lowers high to medium and medium to low, keeps low, and leaves automatic alone |
| AirConditioner.FanStepsUndo | components/air_conditioner/air_conditioner.cpp:108-119 | one step up then down, or down then up, returns to the speed it started from where neither step saturates |
| AirConditioner.FanStepsSaturate | components/air_conditioner/air_conditioner.cpp:108-119 | two steps up from any manual speed reach high and two steps down reach low |
| AirConditioner.Clamp | components/air_conditioner/air_conditioner.cpp:133 | a requested temperature inside 16..31 is kept and one outside is pulled to the nearer bound |
| AirConditioner.Stoi | components/air_conditioner/air_conditioner.cpp:131 | a parsed parameter fits a 32-bit int |
| AirConditioner.StoiReadsSpelled | components/air_conditioner/air_conditioner.cpp:131 | the parameter "调节温度" reads is any 32-bit number spelled in decimal, after any white space and before any non-digit, read back as that number |
| AirConditioner.StoiSkipsSpace | components/air_conditioner/air_conditioner.cpp:131 | white space before the number does not change what is read |
| AirConditioner.StoiRejectsText | components/air_conditioner/air_conditioner.cpp:131 | an empty or digitless parameter is rejected |
| AirConditioner.OperatedKeepsTargetInRange | components/air_conditioner/air_conditioner.cpp:90-137 | from a target in 16..31 and a default in range every operation keeps the target in 16..31; only "调节温度" with an unreadable parameter fails |
| AirConditioner.SetTemperatureClamps | components/air_conditioner/air_conditioner.cpp:130-137 | "调节温度" sets the target to the parameter clamped to 16..31 and changes nothing else |
| AirConditioner.TemperatureSteps | components/air_conditioner/air_conditioner.cpp:120-129 | "温度升高" and "温度降低" move the target by one and stop at 31 and 16 |
| AirConditioner.SettingOfThree | components/air_conditioner/air_conditioner.cpp:316-343 | the final setting of a channel is that of the last frame addressed to it |
| AirConditioner.RelayFrameSwitches | components/air_conditioner/air_conditioner.cpp:316-343 | a relay frame sets its own channel and no other |
| AirConditioner.SettingAppend | components/air_conditioner/air_conditioner.cpp:316-343 | after two batches of frames a channel's setting is the second batch's when it touches the channel, the first batch's otherwise |
| AirConditioner.OneFanRuns | components/air_conditioner/air_conditioner.cpp:316-343 | with distinct channels, opening a fan speed leaves exactly that fan relay on and the valve untouched |
| AirConditioner.AutoSpeed | components/air_conditioner/air_conditioner.cpp:298-306 | the automatic speed is low exactly when the difference is at most the low bound, high exactly when it is above that and at least the high bound |
| AirConditioner.AutoSpeedMonotone | components/air_conditioner/air_conditioner.cpp:298-306 | a larger temperature difference never gives a lower automatic speed |
| AirConditioner.FanRelaySpeed | components/air_conditioner/air_conditioner.cpp:287-313 | a manual speed is used as set; automatic in fan mode uses the configured speed; otherwise the speed follows the temperature difference and is never automatic |
| AirConditioner.CoolingHysteresis | components/air_conditioner/air_conditioner.cpp:230-253 | when cooling, a room at or above target plus the rework threshold starts work, at or below target minus the stop threshold stops it, and in between nothing changes |
| AirConditioner.HeatingHysteresis | components/air_conditioner/air_conditioner.cpp:254-277 | when heating, a room at or below target minus the stop threshold starts work, at or above target plus the stop threshold stops it, and in between nothing changes |
| AirConditioner.WorkingRunsOneFan | components/air_conditioner/air_conditioner.cpp:225-284 | a unit that is working after a regulation step runs exactly one fan relay, and starting work opens the valve |
| AirConditioner.CloseAllStopsEverything | components/air_conditioner/air_conditioner.cpp:350-355 | the close-all stop action switches off the valve and all three fans |
| AirConditioner.FanModeClosesValve | components/air_conditioner/air_conditioner.cpp:279-282 | in fan mode a regulation step closes the valve and leaves the working flag as it was |
| AirConditioner.PowerOffThenShutdown | components/air_conditioner/air_conditioner.cpp:186-222 | power-off closes the valve and leaves only the configured after-run fan on; when the shutdown timer fires every fan is off |
| AirConditioner.SinglePipeFcu.constructor | components/air_conditioner/air_conditioner.h:99-102 | the unit keeps the low eight bits of its id and its name, carried state, unit id and channels, takes the configured default mode, fan and target, and starts off with a room temperature of 26 |
| AirConditioner.SinglePipeFcu.UpdateRoomTemp | components/air_conditioner/air_conditioner.h:81 | only the room temperature changes |
| AirConditioner.SinglePipeFcu.OpenFanRelay | components/air_conditioner/air_conditioner.cpp:316-343 | the frames of FanFrames are sent for the speed |
| AirConditioner.SinglePipeFcu.AdjustFanRelay | components/air_conditioner/air_conditioner.cpp:287-313 | the fan frames of FanRelaySpeed for the current settings and room are sent |
| AirConditioner.SinglePipeFcu.StopOnReachedTarget | components/air_conditioner/air_conditioner.cpp:346-368 | the frames of the configured stop action are sent |
| AirConditioner.SinglePipeFcu.AdjustRelayStates | components/air_conditioner/air_conditioner.cpp:225-284 | the working flag and the frames sent are those of Regulated for the settings, previous working flag and room temperature |
| AirConditioner.SinglePipeFcu.PowerOff | components/air_conditioner/air_conditioner.cpp:192-222 | the unit is off and idle, the shutdown timer is armed, and PowerOffFrames are sent |
| AirConditioner.SinglePipeFcu.ShutdownAfterTimerFired | components/air_conditioner/air_conditioner.cpp:186-190 | the timer is spent and every fan relay is switched off |
| AirConditioner.SinglePipeFcu.SyncStates | components/air_conditioner/air_conditioner.cpp:162-177 | one air-conditioner frame with the state and temperature bytes of the current settings is queued |
| AirConditioner.SinglePipeFcu.Apply | components/air_conditioner/air_conditioner.cpp:86-137 | the unit is on with the shutdown timer disarmed, and the settings become Operated of the old ones, unchanged when the parameter is unreadable |
| AirConditioner.SinglePipeFcu.Execute | components/air_conditioner/air_conditioner.cpp:74-141 | "关"/"关闭" powers off and reports; any other operation switches on, applies Operated, regulates once and reports |
| AirConditioner.SinglePipeFcu.TakeReport | components/air_conditioner/air_conditioner.cpp:28-71 | the room temperature is always taken; the other settings are taken from the report only while the room is occupied or the configuration allows it |
| AirConditioner.SinglePipeFcu.UpdateState | components/air_conditioner/air_conditioner.cpp:144-159 | a report is taken; while allowed, power off follows a clear power bit, otherwise the unit switches on and regulates once; then the settings are reported |
| AirConditioner.InfraredAc.constructor | components/air_conditioner/air_conditioner.h:132-133 | the unit keeps the low eight bits of its device id, its unit id and names, takes the configured defaults, starts off with a room temperature of 26 and no code base |
| AirConditioner.InfraredAc.UpdateRoomTemp | components/air_conditioner/air_conditioner.h:81 | only the room temperature changes |
| AirConditioner.InfraredAc.SyncStates | components/air_conditioner/air_conditioner.cpp:454-470 | one air-conditioner frame with the state and temperature bytes of the current settings is queued |
| AirConditioner.InfraredAc.Apply | components/air_conditioner/air_conditioner.cpp:386-434 | the unit is on and the settings become Operated of the old ones, unchanged when the parameter is unreadable |
| AirConditioner.InfraredAc.Execute | components/air_conditioner/air_conditioner.cpp:376-437 | "关"/"关闭" powers off and reports; any other operation switches on, applies Operated and reports, without relays |
| AirConditioner.InfraredAc.UpdateState | components/air_conditioner/air_conditioner.cpp:439-452 | a report is taken; while allowed the power bit is followed; then the settings are reported |
| AirConditioner.InfraredAc.SetCodeBaseAsWritten | components/air_conditioner/air_conditioner.cpp:472-481 | as written, the code base is stored and one frame is always sent, whose code bytes are whatever the uninitialised locals hold unless the code base is "gree" |
| AirConditioner.InfraredAc.SetCodeBase | components/air_conditioner/air_conditioner.cpp:472-481 | corrected, the code base is stored and the code frame is sent only for a code base whose codes are known |
| AirConditioner.CodeBaseFrameDependsOnStaleBytes | components/air_conditioner/air_conditioner.cpp:474-480 | as written, for a code base other than "gree" the frame sent differs with the stale bytes |
| AirConditioner.CodeBaseFramesKnownOnly | components/air_conditioner/air_conditioner.cpp:476-480 | corrected, "gree" sends one frame to the infrared controller with codes 0x03 and 0x3E, and any other code base sends nothing |
| PresetDevice.FromChars | components/preset_device/preset_device.cpp:74-75 | a number is read only from a parameter that starts with '-' or a digit, and fits an int |
| Commons.Decimal | components/preset_device/preset_device.cpp:74 | the spelling of a number is a non-empty run of digits |
| Commons.DecimalValueOfDecimal | components/preset_device/preset_device.cpp:74 | the digits of a number's spelling are worth that number |
| Commons.ScanSignedReadsSpelled | components/air_conditioner/air_conditioner.cpp:131 | the signed scan reads the spelling of every 32-bit number back as that number, consuming exactly the spelling |
| Commons.ScanIntSkipsSpace | components/air_conditioner/air_conditioner.cpp:131 | the integer conversion skips leading white space and then reads what the signed scan reads, counting the skipped characters |
| PresetDevice.FromCharsReadsSpelled | components/preset_device/preset_device.cpp:74-75 | every int spelled in decimal is read back as itself, whatever non-digit text follows |
| PresetDevice.FromCharsReadsDigits | components/preset_device/preset_device.cpp:74-75 | a run of digits that fits an int is read as its value |
| PresetDevice.FromCharsReadsNegative | components/preset_device/preset_device.cpp:74-75 | a minus sign before digits reads the negative value |
| PresetDevice.FromCharsIsStricterThanStoi | components/preset_device/preset_device.cpp:74-75 | unlike the air conditioner's std::stoi, a leading blank or '+' or an empty parameter is rejected |
| PresetDevice.ScanIntReadsDecimal | components/preset_device/preset_device.cpp:166 | %d reads a number and stops right after its digits |
| PresetDevice.ScanPairReadsPair | components/preset_device/preset_device.cpp:166 | "pid,bid" is read back as the two numbers |
| PresetDevice.ScanPairNeedsAdjacentComma | components/preset_device/preset_device.cpp:166 | a blank before the comma makes the scan fail |
| PresetDevice.TimeBytes | components/preset_device/preset_device.cpp:39-43 | the clock is broadcast in four bytes |
| PresetDevice.TimeBytesRoundTrip | components/preset_device/preset_device.cpp:39-45 | the four bytes read most significant first give back the time modulo 2^32 |
| PresetDevice.TimeSyncCarriesTheClock | components/preset_device/preset_device.cpp:36-46 | with a synchronised clock exactly one time frame is sent, carrying the clock in bytes 2..5 with a valid checksum |
| PresetDevice.Heartbeat | components/preset_device/preset_device.cpp:22-48 | "睡眠" and "拔卡" switch to the sleep heartbeat; "插卡" switches to the alive heartbeat and broadcasts the time when the clock is known; anything else changes nothing |
| PresetDevice.RoomStateOp | components/preset_device/preset_device.cpp:50-70 | "添加", "删除" and "反转" add, remove and toggle the state; an added "SOS" is reported at once; "如果存在此状态则跳出" stops the running scene exactly when the state is present and a scene runs the step |
| PresetDevice.DelayParameters | components/preset_device/preset_device.cpp:72-79 | "5" and "5秒" wait five seconds; " 5", "-5" and "五" are rejected |
| PresetDevice.DelayReadsSeconds | components/preset_device/preset_device.cpp:72-89 | a delay of d seconds spelled in decimal waits d * 1000 ms modulo 2^32, as the `int` product handed to a `uint32_t` gives: exactly d seconds up to 4294967 s, and less than asked above that |
| PresetDevice.Delayer | components/preset_device/preset_device.cpp:71-92 | "延时" with a valid parameter waits its seconds times 1000 ms, modulo 2^32, after flushing the indicator queue; otherwise nothing happens |
| PresetDevice.ActionGroupOp | components/preset_device/preset_device.cpp:93-117 | with a valid id, "调用" requests the registered scene, "中断" stops it and flushes the indicators, and the any-key operations arm or disarm that id; an invalid id or unknown scene changes nothing |
| PresetDevice.RestorationAddsOne | components/preset_device/preset_device.cpp:128-150 | restoring one more recorded device adds at most that device's own operation |
| PresetDevice.RestoreIgnoresLampsAsWritten | components/preset_device/preset_device.cpp:132-137 | as written, a recorded lamp is sent "开"/"关", which the lamp ignores whatever it was recorded as |
| PresetDevice.RestoreSwitchesEveryDevice | components/preset_device/preset_device.cpp:128-150 | corrected, every registered recorded device is put back: a lamp switches to its recorded state, a curtain opens or closes, an air conditioner powers on with its defaults or off |
| PresetDevice.RestorationDiffersOnlyForLamps | components/preset_device/preset_device.cpp:131-148 | the corrected restore sends every device other than a lamp what the code as written sends |
| PresetDevice.Snapshot.constructor | components/preset_device/preset_device.cpp:16 | the snapshot starts empty and keeps the restore spelling it is given |
| PresetDevice.Snapshot.Record | components/preset_device/preset_device.cpp:119-126 | every registered device's on state is recorded under its id, and earlier records of other devices stay |
| PresetDevice.Snapshot.Take | components/preset_device/preset_device.cpp:125 | one device's on state is recorded under its id |
| PresetDevice.Snapshot.ReadAndClear | components/preset_device/preset_device.cpp:127-151 | the operations sent are the restoration of the snapshot under the snapshot's spelling (the firmware's is `AsWritten`: "开"/"关" for every device), and the snapshot is emptied |
| PresetDevice.Snapshot.Clear | components/preset_device/preset_device.cpp:152-153 | the snapshot is emptied |
| PresetDevice.Snapshot.ClearAndStop | components/preset_device/preset_device.cpp:154-161 | the snapshot is emptied and the running scene, if any, is stopped with the indicators flushed |
| PresetDevice.IndicatorAddressesTheKey | components/preset_device/preset_device.cpp:164-177 | "亮" and "灭" on "pid,bid" address that panel and key with that state |
| PresetDevice.IndicatorPanelIdWraps | components/preset_device/preset_device.cpp:166-170 | a panel id of 256 or more is kept modulo 256 |
| PresetDevice.IndicatorOp | components/preset_device/preset_device.cpp:164-181 | on a known panel and key the backlight bit takes the requested state and that panel's publish is queued; a bad parameter, unknown panel or key, and "亮1秒" change nothing |
| LordContext.HeartbeatCodesParse | components/lord_manager/lord_manager.h:15-16 | both configured heartbeat strings parse to their eight bytes |
| LordContext.HeartbeatsAreFrames | components/lord_manager/lord_manager.h:15-16 | both heartbeats are bus frames with header, footer and a checksum the receiver accepts, and they differ |
| LordContext.Context.constructor | components/lord_manager/lord_manager.h:79-80 | the lord starts with the sleep heartbeat, no any-key scene, zero timestamps, the door closed and no relay reported |
| LordContext.Context.UseAliveHeartBeat | components/lord_manager/lord_manager.h:64 | the alive heartbeat is sent from now on |
| LordContext.Context.UseSleepHeartBeat | components/lord_manager/lord_manager.h:65 | the sleep heartbeat is sent from now on |
| LordContext.Context.SetAnyKeyActionGroup | components/preset_device/preset_device.cpp:111-112 | the scene id is armed as the any-key scene |
| LordContext.Context.ClearAnyKeyActionGroup | components/preset_device/preset_device.cpp:113-114 | no any-key scene is armed |
| LordContext.Context.ExecuteAnyKeyActionGroup | components/channel_input/channel_input.cpp:32 | an armed scene is disarmed and requested when registered; the result says whether one was armed; with none armed nothing runs |
| LordContext.Context.OnDoorOpened | components/stm32_comm/stm32_rx.cpp:67 | the door is open and its opening time is the current uptime |
| LordContext.Context.OnDoorClosed | components/stm32_comm/stm32_rx.cpp:65 | the door is closed and its closing time is the current uptime |
| LordContext.Context.UpdateRelayPhysicsState | components/stm32_comm/stm32_rx.cpp:30 | the channel's reported state is recorded, non-zero as on, and the other channels keep theirs |
| LordContext.Context.ReadRelayPhysicsState | components/relay_out/relay_out.cpp:41 | a channel reads as on exactly when the board last reported it on; an unreported channel is off |
| ManagerBase.Lookup | components/manager_base/manager_base.h:40-43 | an item is found exactly when its key is present, and it is the stored one |
| ManagerBase.AddThenGet | components/manager_base/manager_base.h:35-43 | after adding under a key, looking it up finds the item, and a second add under the key replaces the first |
| ManagerBase.RemoveThenGet | components/manager_base/manager_base.h:40-48 | after removing a key it is absent and every other key finds what it found before |
| ManagerBase.CollectMatching | components/manager_base/manager_base.h:99-112 | the result holds one entry per key whose item has the type, each key once, and exactly the items of that type |
| ManagerBase.DistinctKeysCount | components/manager_base/manager_base.h:106-110 | a list of distinct keys drawn from a set and covering it is as long as the set |
| ManagerBase.ResourceManager.constructor | components/manager_base/manager_base.h:60 | a new registry is empty |
| ManagerBase.ResourceManager.AddItem | components/manager_base/manager_base.h:35-38 | the item is stored under its key, replacing any earlier one |
| ManagerBase.ResourceManager.GetItem | components/manager_base/manager_base.h:40-43 | an item is returned exactly when the key is present, and it is the stored one |
| ManagerBase.ResourceManager.RemoveItem | components/manager_base/manager_base.h:45-48 | the key is removed and every other entry kept |
| ManagerBase.ResourceManager.Clear | components/manager_base/manager_base.h:54-57 | the registry is empty |
| ManagerBase.ResourceManager.GetItemsOfType | components/manager_base/manager_base.h:99-112 | the items returned are exactly the registered items of the type, one per key |
| ManagerBase.LordManager.constructor | components/manager_base/manager_base.h:255-264 | the version, wait-to-die state and mode are empty and the seconds zero |
| ManagerBase.LordManager.SetCurrMode | components/manager_base/manager_base.h:244 | the mode becomes the given name |
| ManagerBase.LordManager.GetCurrMode | components/manager_base/manager_base.h:245 | the current mode name is returned |
| ManagerBase.LordManager.Clear | components/manager_base/manager_base.h:247-252 | version, wait-to-die state and mode are emptied and the seconds zeroed, while the channels are kept |
| Lord.RegisteredClasses | components/lord_manager/lord_manager.h:49-58 | every registered device is an IDevice; the AirConBase query finds exactly the two kinds of air conditioner, the single-relay query exactly the lamps, and the queries for classes never registered find nothing |
| Lord.LordManager.constructor | components/lord_manager/lord_manager.h:79-91 | the singleton starts with empty registries and no configuration time or mode name |
| Lord.LordManager.ClearAll | components/lord_manager/lord_manager.cpp:12-20 | back to the sleep heartbeat, with the configuration time, the last mode name and every registry emptied |
| Lord.LordManager.SetCommonConfig | components/lord_manager/lord_manager.h:31 | the configuration time becomes the given string |
| Lord.LordManager.RegisterLamp | components/lord_manager/lord_manager.cpp:45-48 | a new lamp with the given fields is stored under the low eight bits of its id, replacing any device there, and no other entry changes; a lookup by the full id finds it only when the id is below 256 |
| Lord.LordManager.RegisterCurtain | components/lord_manager/lord_manager.cpp:50-53 | a new curtain with the given fields is stored under the low eight bits of its id, and no other entry changes; a lookup by the full id finds it only when the id is below 256 |
| Lord.LordManager.RegisterInfraredAir | components/lord_manager/lord_manager.cpp:55-58 | a new infrared unit with the given ids is stored under the low eight bits of its id, and no other entry changes; a lookup by the full id finds it only when the id is below 256 |
| Lord.LordManager.RegisterSingleAir | components/lord_manager/lord_manager.cpp:60-63 | a new fan-coil unit with the valve and three fan channels is stored under the low eight bits of its id, and no other entry changes; a lookup by the full id finds it only when the id is below 256 |
| Lord.LordManager.RegisterActionGroup | components/lord_manager/lord_manager.cpp:134-137 | a new idle scene with the given name, mode flag and steps is stored under its id |
| Lord.LordManager.RegisterPanelKeyInput | components/lord_manager/lord_manager.cpp:139-156 | the panel is found or created; the key is added exactly when the panel does not have it yet, and otherwise the panel keeps its first key |
| Lord.LordManager.RegisterDryContactInput | components/lord_manager/lord_manager.cpp:158-161 | a new channel input with the given fields is stored under the low eight bits of its id, replacing any input there; an id of 256 or more is not a key afterwards |
| Lord.LordManager.GetDeviceByDid | components/lord_manager/lord_manager.cpp:80-83 | a device is returned exactly when the id is a registered key, and it carries that id; an id of 256 or more finds nothing, because the keys are eight-bit |
| Lord.LordManager.GetActionGroupByAid | components/preset_device/preset_device.cpp:102 | a scene is returned exactly when the id is registered, and it carries that id |
| Lord.LordManager.GetPanelByPid | components/lord_manager/lord_manager.cpp:95-98 | a panel is returned exactly when the id is registered, and it carries that id |
| Lord.LordManager.GetDevicesByType | components/lord_manager/lord_manager.h:49-58 | the devices returned are exactly the registered devices of the class or a class derived from it, one per id |
| Lord.LordManager.GetAllModeActionGroup | components/lord_manager/lord_manager.cpp:85-93 | the scenes returned are exactly the registered scenes that are modes, one per id |
| Lord.LordManager.GetAllChannelInputByChannelNum | components/channel_input/channel_input.cpp:88 | the inputs returned are exactly the registered inputs on the channel, one per id |
| Lord.LordManager.GetAliveChannel | components/stm32_comm/stm32_rx.cpp:71 | an input tagged as the occupancy channel is returned when one is registered, and none otherwise |
| Lord.LordManager.HandlePanel | components/lord_manager/lord_manager.cpp:100-106 | a known panel takes the key report as SwitchReport says; an unknown panel id changes nothing |
| Lord.LordManager.UpdateButtonIndicator | components/lord_manager/lord_manager.cpp:108-114 | on a known panel and key the backlight bit takes the state and the panel's publish is queued; otherwise nothing is queued |
| Lord.LordManager.UpdateAirState | components/lord_manager/lord_manager.cpp:116-124 | every air conditioner whose id is the low three bits of the state byte takes the report; every other unit is left as it was |
| Lord.LordManager.UpdateRoomTemp | components/lord_manager/lord_manager.cpp:126-132 | every air conditioner with the id takes the room temperature and no other unit changes |
| Oracle.PartsReachController | rs485_oracle.py:57-62 | a command built from byte-sized parts is the very frame the controller's reply builder makes, and the controller reads it back as that command with those parameters |
| Oracle.BuildChunkedCommands | rs485_oracle.py:65-83 | the string is cut into numbered packets of three codes, the last group padded with 0xFF, and a string whose length is a multiple of three closed by a packet of filler alone |
| Oracle.ChunksAreTransferPackets | rs485_oracle.py:65-83 | the chunked packets of an SSID or password are, in order, the frames of the packets the controller's reassembly expects, and in test mode the controller routes each to that transfer |
| Oracle.ChunkedTransferRoundTrip | rs485_oracle.py:65-83 | a string of at most 44 bytes without NUL or filler, chunked by the tool and reassembled by the controller, is saved exactly |
| Oracle.StripLeft | rs485_oracle.py:88 | the result is a suffix of the input, only Python white space (`str.isspace`, U+001C..U+001F and the Unicode spaces included) is dropped, and it does not start with white space |
| Oracle.StripRight | rs485_oracle.py:88 | the result is a prefix of the input, only Python white space is dropped, and it does not end with white space |
| Oracle.Strip | rs485_oracle.py:88 | the stripped line neither starts nor ends with white space |
| Oracle.Lower | rs485_oracle.py:88 | lowering keeps the length and maps each character to its lower-case letter |
| Oracle.OracleTool.constructor | rs485_oracle.py:52-53 | both packet counters start at zero |
| Oracle.OracleTool.BuildCommand | rs485_oracle.py:86-155 | the packets sent or the refusal are those the command table gives, and a credential transfer records its packet count in its own counter, leaving the other unchanged |
| Oracle.NoEmptyPayload | rs485_oracle.py:113-127 | the "must be followed by an argument" refusal can never happen, because the line is stripped before the keyword is matched |
| Oracle.TransferCommand | rs485_oracle.py:113-127 | a credential typed after its keyword is sent as the chunked packets of its payload, lowered when the whole line is lowered and as typed otherwise |
| Oracle.CapitalsLostAsWritten | rs485_oracle.py:88-119 | as written, `wifissid A` makes the controller save "a" |
| Oracle.TypedCredentialSaved | rs485_oracle.py:113-127 | with only the keyword lowered, a credential of at most 44 Latin-1 characters is sent and saved by the controller exactly as typed |
| Oracle.ActionCommand | rs485_oracle.py:129-155 | a known two-letter action followed by a number is sent as that action's frame when the number is 1 to 255, and refused as out of range otherwise |
| Oracle.RelayCommandDrivesBoard | rs485_oracle.py:132-155 | `or` with a relay number 1 to 255 becomes, through the controller in test mode, a relay-control frame switching that relay on |
| Oracle.ParseShortResponse | rs485_oracle.py:159-192 | a reply is malformed exactly when its length, header, device type or footer is wrong, and fails the checksum exactly when it is well framed but the sum of its first six bytes differs |
| Oracle.RepliesUnderstood | rs485_oracle.py:159-192 | every reply the controller sends to a test command is read as what it means, and a command the controller does not answer has no meaning |
| Oracle.AcksUnderstood | rs485_oracle.py:183-186 | the acknowledgement of a credential packet is read as that packet's place in its transfer, shown against that transfer's count |
| Oracle.CorruptedReplyRejected | rs485_oracle.py:159-168 | a reply with any one of its first seven bytes changed is rejected as malformed or failing its checksum |
| Oracle.ParseReceivedData | rs485_oracle.py:195-213 | a status frame is malformed exactly when its length, header, device type or footer is wrong, fails exactly when its checksum does, and otherwise yields a four-octet address |
| Oracle.StatusRoundTrip | rs485_oracle.py:195-213 | the tool reads back the serial number, address and network that the controller put in its status frame |
| Oracle.ToolReceiver.constructor | rs485_oracle.py:217-225 | the receiver starts waiting for a header with an empty buffer |
| Oracle.ToolReceiver.Feed | rs485_oracle.py:226-262 | one byte moves the receiver as the byte-level state machine says and reports the frame it ends, if any |
| Oracle.ToolReceiver.Receive | rs485_oracle.py:217-266 | reading a run of bytes reports every frame ended, in order, and leaves the state the machine reaches |
| Oracle.FrameCompleted | rs485_oracle.py:226-262 | once a delimited frame has started, its remaining bytes end it with exactly one event |
| Oracle.FrameReceived | rs485_oracle.py:226-262 | a waiting receiver takes a delimited frame whole, hands it to the parser its length selects, and waits again |
| Oracle.EventFramesBounded | rs485_oracle.py:226-262 | no frame ended is longer than what had been collected plus what was read |
| Oracle.NoHeaderNoEvents | rs485_oracle.py:232-236 | bytes without a header leave a waiting receiver waiting and end no frame |
| Oracle.InnerFooterCutsStatus | rs485_oracle.py:248-258 | as written, a status frame with a 0x7E byte inside is cut at it and never reaches the status parser |
| Oracle.StatusOf126Cut | rs485_oracle.py:248-258 | as written, the status frame of a controller at 192.168.1.126 arrives as an 11-byte frame of unknown length; ended by length it is read whole |
| Oracle.StatusFramesByLength | rs485_oracle.py:248-258 | ended by length, every status frame reaches the status parser whole, whatever bytes it carries |
| Oracle.RepliesByLength | rs485_oracle.py:248-258 | ended by length, every reply frame reaches the reply parser whole |

## Left out

- Tasks, timers and concurrency are not modelled. FreeRTOS tasks, timers, task notifications, `vTaskDelay` and the mutexes of the room-state set and the registries become sequential calls and explicit events, with the time as a parameter.
- The periodic tasks of rs485_comm.cpp (lines 67-103) are left out: they only resend the heartbeat and poll the air conditioners on a timer, and have no logic beyond the send.
- UART and RS485 driver calls, the queue's send task and all logging are left out. What is sent is the content of the transmit queues (`Rs485Frames.Rs485Port`, `Stm32Frames.Stm32Port`).
- Clocks are parameters: `esp_timer_get_time`, `time` and `localtime_r` become `nowMs`, `wallClock` and `localHour`.
- The switch report's dimming branch (`handleDimming`) and the voice report's `handleVoiceCmd` are not modelled. The lord does not declare them, so they are recorded as routes with no effect.
- `sendStm32Cmd`, `controlRelay` and `controlDrycontactOut` are not in the sources. They are modelled as queuing the relay-control (0x01) or dry-contact-output (0x05) board frame, which is what lamp.cpp and board_output.cpp send for the same purpose.
- Stm32Rx.HandleResponse: the `0x09` case calls a member that the lord does not declare. That case is not modelled.
- The network status, IP address and serial number that the status report reads come from network.cpp and the flash partition, which are not part of this model. They are parameters.
- The version reply uses `AETHORAC_VERSION_MAJOR/MINOR/PATCH`, which no source file defines. The model uses 1, 0, 2, taken from `AETHORAC_VERSION` "1.0.2" in components/identity/identity.h:6.
- PresetDevice.Heartbeat: does not model `setAlive` or the "睡眠" case's `wishIndicatorAllPanel`, because the lord does not declare either; it models only the heartbeat switch and the time broadcast.
- PresetDevice.Delayer: `delay * 1000` overflows a 32-bit `int` above 2147483 s, which C++ leaves undefined; the model takes the two's-complement wrap-around and the conversion to the `uint32_t` of `delay_ms`, so the wait is the product modulo 2^32. The path without a scene divides the signed product by the tick period before `vTaskDelay`; above 2147483 s the model does not capture how that division differs.
- PresetDevice.IndicatorOp: "亮1秒" calls `shortLightIndicator`, which the panel does not declare; the model leaves the backlight unchanged for it.
- `registerPreset`, `registerRs485`, `registerRelayOut` and `registerDryContactOut` have empty bodies, so the model registers nothing for them. The same holds for the empty `updateChannelState` and `executeInputAction`.
- The plain setters of manager_base.h (`setVersion`, `setAliveChannel`, `setDoorChannel`, `setWaitToDieState`, `setWaitToDieSec`) only assign a field and are not modelled apart from the fields they set.
- `execute_backstage` of air_conditioner.cpp is declared but not defined, so it is not modelled.
- The AC shutdown-after timer is never created in the sources. It is modelled as a flag that `PowerOff` arms, plus a `ShutdownAfterTimerFired` event.
- ChannelInput.ChannelInput.Execute: when it wakes a sleeping room, it switches the heartbeat, but the re-sync of every backlight that follows is reported through the `woke` result instead of being performed inside the call.
- VoiceCommand.VoiceCommand.Execute: when it wakes a sleeping room, it switches the heartbeat and reports the wake through `woke`; the source then re-syncs only the dry-contact outputs' backlights, and since no dry-contact output is ever registered in this model, that pass would change nothing and is not performed.
- Curtain.Curtain.Execute: "反转" is ignored, as in the source.
- Lord.LordManager.UpdateAirState: states each receiving unit's room temperature, settings and power, not its working flag or the frames it sends, because those depend on the unit's state at its own delivery and the frames interleave in the registry's order, which the model leaves open; `AirConditioner.SinglePipeFcu.UpdateState` states both for one delivery.
- Stm32Rx.DoorChanged: a wake-up report is handled once, and no further wake-up report is made from within it (the `nested` flag). The source re-enters `handle_response` without limit; see Findings.
- Stm32Rx.MoveDoor: the same cut as DoorChanged, and the 50 ms delay before the wake-up report is not modelled.
- The scene task's per-action loop is commented out in this snapshot, so `Finish` operates no device.
- Link and repel propagation with the operated-flag guard exists only in comments (components/idevice/idevice.cpp:16-35). The calls to `sync_link_devices` and `close_repel_devices` are recorded as effects, not performed.
- Configuration loading (json_codec.cpp), MQTT, OTA, the network drivers and the watchdog (network.cpp), the boot code (main.cpp), the interactive sender rs485.py and the stale ac_manager.h are not part of this model.
- The bench-test tool's serial port selection, interactive prompt, main loop (which writes each packet and sleeps 0.3 s), `print_help` and the `e` command are I/O and are left out. A credential character above code point 255 makes `bytearray(pkt)` raise in that loop (rs485_oracle.py:309), after the packets before it were written. The model's packets keep such a value as it is, so it does not capture the partial write. The 0.3 s pace is modelled in the credential timing of `Rs485Session`. `ls` is modelled as sending nothing.
- Oracle.Lower and Oracle.IsNumber: they model Python's `lower` and `isdigit` on ASCII letters and digits only; Unicode case mappings and digits are not modelled. `Oracle.Strip` uses Python's whole white-space set.
- Oracle.ParseShortResponse and Oracle.ParseReceivedData: they return the report the tool prints, not the printed text.

## Findings

| source | as written | input that shows it | evidently intended | confidence | as-written member | corrected member |
|---|---|---|---|---|---|---|
| components/channel_input/channel_input.cpp:44-82 | the timer callback sets the sensor to idle before the occupancy guards run, and a guard that re-arms the timer leaves it idle, so the re-armed timer does nothing when it fires | occupancy channel, door still open at the first expiry, door closed after the last presence at the second: no timeout scene ever runs | a re-armed expiry checks the guards again and runs the timeout scenes once they pass | not executed | ChannelInput.RetryIsLostAsWritten | ChannelInput.RetryRechecks |
| components/preset_device/preset_device.cpp:137 | the snapshot restore sends "开"/"关" to every recorded lamp, but a lamp accepts only "打开"/"关闭"/"反转" | record a snapshot with a lamp on, switch it off, restore: the lamp stays off | every recorded device, lamps included, returns to its recorded state | not executed | PresetDevice.RestoreIgnoresLampsAsWritten | PresetDevice.RestoreSwitchesEveryDevice |
| components/air_conditioner/air_conditioner.cpp:472-481 | the two code bytes are assigned only for "gree"; for any other code base the frame carries uninitialised stack bytes | `set_code_base("midea")` | send the frame only for a code base whose codes are known | not executed | AirConditioner.CodeBaseFrameDependsOnStaleBytes | AirConditioner.CodeBaseFramesKnownOnly |
| rs485_oracle.py:248-258 | the tool's receiver ends a frame at the first 0x7E byte, and the status frame carries the IP address octets raw | a controller at 192.168.1.126: its status frame arrives as an 11-byte frame of unknown length and is never decoded | end each frame at the length its type byte implies | not executed | Oracle.StatusOf126Cut | Oracle.StatusFramesByLength |
| rs485_oracle.py:88 | the whole command line is lowered, credential included | `wifissid Hotel-5G` makes the controller save "hotel-5g" | lower only the keyword and send the credential as typed | not executed | Oracle.CapitalsLostAsWritten | Oracle.TypedCredentialSaved |
| components/rs485_comm/rs485_comm.cpp:536-541 | the two-second credential timeout counts from the first packet, while the tool sends a packet every 0.3 s | an SSID of 27 characters or more (ten or more packets) is dropped before its last packet whatever the phase of the 500 ms timeout task; with the task 100 ms after the first packet, 21 characters are enough | time the session from the latest accepted packet | not executed | Rs485Session.ToolTransferAsWritten | Rs485Session.ToolTransferDelivered |
| components/stm32_comm/stm32_rx.cpp:63-77 | a door report on a channel whose first input is a door contact makes a wake-up report on the card-slot channel by calling `handle_response` again, with no depth limit | a door contact and an infrared card-slot sensor configured on the same channel: every wake-up report moves the door again and makes another, so the recursion never ends | make one wake-up report per door report | not executed | Stm32Rx.DoorOnSensorChannelLoopsAsWritten | Stm32Rx.WakeChainCut |
