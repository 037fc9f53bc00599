# UE4DualSense engine adapter, modelled in Dafny

This project models the engine-side half of the UE4DualSense plugin: the code
that sits between the game engine and the prebuilt `ds5w_x64` controller
library. Once per engine tick an adapter asks the library for the DualSense
controller's input state. It turns the button bits into press, repeat and
release events for the engine, computes the next output state and hands it
back to the library. The output state covers rumble, the player LEDs, the mic
LED and the adaptive-trigger effects. When the read fails, the adapter asks
the library to reconnect.

There are two adapters, and both are modelled:

- `FWinDualSenseDevice` is the newer input device. It keeps one
  press/repeat/release state machine per registered button and dispatches
  events.
- `FWinDualSense` is the older one. It enumerates and opens a controller when
  it is constructed, and on each tick applies only the output rules.

The modules:

- `Ds5w` (`ds5w.dfy`) is the data model of the library header: return codes
  and their success test, and the input-button and player-LED bit masks with
  their layout lemmas. It also holds the enumerations, the tagged
  trigger-effect union over its 6-byte parameter block, the input and output
  state records, and the library calls an adapter makes.
- `DualSenseStruct` (`button_data.dfy`) holds `FDualSenseButtonData` as a class
  with its constructors and `UpdateButtonState`. It also has the state
  machine's transition function and trace lemmas over sequences of readings.
- `AdapterPolicy` (`adapter_policy.dfy`) holds the per-tick output rules that
  both adapters share:
  - the Bluetooth multiplier;
  - saturating rumble decay and the high byte sent to the motors;
  - the player-LED rule;
  - trigger-type hysteresis;
  - mic-LED priority;
  - the fixed trigger-effect parameters.
- `DualSenseDevice` (`dualsense_device.dfy`) holds `FWinDualSenseDevice`, a
  class with the button registrations and the per-button bit tests.
  - `UpdateButtons` and `UpdateOutputs` are methods, proved against the pure
    specifications `StepStates`, `Dispatch` and `OutputStep`.
  - `SendControllerEvents` has both its success and its failure branch.
- `DualSenseLegacy` (`dualsense_legacy.dfy`) holds `FWinDualSense`: its
  constructor and `SendControllerEvents`, proved against the pure step
  `LegacyStep`, and a lemma relating it to the newer adapter's `OutputStep`.
- `Wrappers` (`wrappers.dfy`) holds `Option`.

The library is not modelled. Each call an adapter makes is recorded as a
`LibraryCall` value, and what the library returns is a parameter of the
adapter's method: the return code, the polled input state, the enumeration
results and the device context.

## Model

| member | source | states |
|---|---|---|
| Ds5w.ReturnValueOf | Source/ThirdParty/WinDualSenseLibrary/ds5w.h:84-130 | each numeric value 0..8 names exactly one return value, which has that value; no larger value names one |
| Ds5w.SuccessIsCodeZero | Source/ThirdParty/WinDualSenseLibrary/ds5w.h:40-41 | `DS5W_SUCCESS` holds exactly for OK, the value 0; `DS5W_FAILED` is its negation |
| Ds5w.ButtonsAndDpadLayout | Source/ThirdParty/WinDualSenseLibrary/ds5w.h:53-60 | the eight face/D-pad masks are distinct single bits; the D-pad fills the low nibble and the face buttons the high nibble |
| Ds5w.ButtonsALayout | Source/ThirdParty/WinDualSenseLibrary/ds5w.h:62-69 | the eight `BTN_A` masks are distinct single bits covering the whole byte |
| Ds5w.ButtonsBLayout | Source/ThirdParty/WinDualSenseLibrary/ds5w.h:71-73 | the three `BTN_B` masks are the distinct bits 0x01, 0x02, 0x04 |
| Ds5w.PlayerLedLayout | Source/ThirdParty/WinDualSenseLibrary/ds5w.h:75-79 | the five player-LED masks are distinct single bits whose union is 0x1F |
| Ds5w.ButtonsAndDpadFlagsDecideByte | Source/ThirdParty/WinDualSenseLibrary/ds5w.h:53-60 | the eight face/D-pad bit tests determine the whole `buttonsAndDpad` byte |
| Ds5w.ButtonsAndDpadFlagsIndependent | Source/ThirdParty/WinDualSenseLibrary/ds5w.h:53-60 | every combination of answers to the eight bit tests is produced by some byte |
| Ds5w.ButtonsBFlagsDecideLowBits | Source/ThirdParty/WinDualSenseLibrary/ds5w.h:71-73 | two `buttonsB` bytes answer the three tests alike exactly when they agree on bits 0 to 2 |
| Ds5w.TriggerEffectTypeOf | Source/ThirdParty/WinDualSenseLibrary/ds5w.h:292-317 | a type byte names an effect type exactly when it is one of 0x00, 0x01, 0x02, 0x26, 0xFC, and that type has the byte as its code |
| Ds5w.TriggerEffectTypeCodesDistinct | Source/ThirdParty/WinDualSenseLibrary/ds5w.h:292-317 | the five type codes are distinct and each decodes back to its type |
| Ds5w.Offset | Source/ThirdParty/WinDualSenseLibrary/ds5w.h:331-411 | every payload member lies inside the 6-byte parameter block |
| Ds5w.Set | Source/ThirdParty/WinDualSenseLibrary/ds5w.h:331-411 | writing a payload member stores its byte and changes neither the tag nor any other byte |
| Ds5w.SetThenGet | Source/ThirdParty/WinDualSenseLibrary/ds5w.h:331-411 | union aliasing: a member written through any payload struct is read back by every member at the same offset, and no other member changes |
| Ds5w.PayloadLayout | Source/ThirdParty/WinDualSenseLibrary/ds5w.h:338-411 | `startPosition` is byte 0 in all three payloads; `Continuous.force` aliases `Section.endPosition` at byte 1; the six `EffectEx` members fill the block |
| Ds5w.ZeroInputState | Source/WinDualSense/Private/WinDualSenseDevice.cpp:58 | the zeroed input state reads no button and both triggers at 0 |
| Ds5w.ZeroOutputState | Source/WinDualSense/Private/WinDualSenseDevice.cpp:59 | the zeroed output state has every field 0: no rumble, no player LED, each enumeration at the enumerator whose value is 0, both effect blocks all 0 |
| DualSenseStruct.Next | Source/WinDualSense/Public/WinDualSense_Struct.h:27-71 | after a tick the button counts as held exactly when it reads pressed, and it is in PRESS or RELEASE exactly when the reading differs from whether it was held |
| DualSenseStruct.TransitionTable | Source/WinDualSense/Public/WinDualSense_Struct.h:31-69 | pressed: NONE and RELEASE go to PRESS, PRESS and REPEAT to REPEAT; released: PRESS and REPEAT go to RELEASE, RELEASE and NONE to NONE |
| DualSenseStruct.ButtonData.constructor | Source/WinDualSense/Public/WinDualSense_Struct.h:14-18 | a default button data has no key, is in NONE and is not pressed |
| DualSenseStruct.ButtonData.WithKey | Source/WinDualSense/Public/WinDualSense_Struct.h:20-25 | a button data built from a key has that key, is in NONE and is not pressed |
| DualSenseStruct.ButtonData.UpdateButtonState | Source/WinDualSense/Public/WinDualSense_Struct.h:27-71 | the pressed flag becomes the argument, the state moves by `Next`, and the key never changes |
| DualSenseStruct.RunStep | Source/WinDualSense/Public/WinDualSense_Struct.h:27-71 | in a trace, each visited state is the step from the state before it on that tick's reading |
| DualSenseStruct.RunAppend | Source/WinDualSense/Public/WinDualSense_Struct.h:27-71 | a trace over two input runs is the first run's trace followed by the second's, from where the first ended |
| DualSenseStruct.RunTracksInput | Source/WinDualSense/Public/WinDualSense_Struct.h:27-71 | whatever the history, a button is held exactly on the ticks it reads pressed |
| DualSenseStruct.ReleaseFollowsHeld | Source/WinDualSense/Public/WinDualSense_Struct.h:52-61 | RELEASE is only entered from PRESS or REPEAT |
| DualSenseStruct.HoldRepeats | Source/WinDualSense/Public/WinDualSense_Struct.h:41-47 | holding a held button for n ticks visits REPEAT on every tick |
| DualSenseStruct.IdleStays | Source/WinDualSense/Public/WinDualSense_Struct.h:62-69 | a button left up from NONE stays in NONE |
| DualSenseStruct.PressHoldRelease | Source/WinDualSense/Public/WinDualSense_Struct.h:27-71 | from NONE, n ≥ 1 pressed ticks then m ≥ 1 released ticks visit PRESS once, REPEAT n-1 times, RELEASE once, then NONE |
| AdapterPolicy.BtMul | Source/WinDualSense/Private/WinDualSenseDevice.cpp:359 | the multiplier is 10 exactly over Bluetooth and 1 otherwise |
| AdapterPolicy.RumbleSteps | Source/WinDualSense/Private/WinDualSenseDevice.cpp:359-363 | per tick the counters drop by 512 and 256 over USB, by 51 and 25 over Bluetooth (integer division) |
| AdapterPolicy.Decay | Source/WinDualSense/Private/WinDualSenseDevice.cpp:362-363 | a counter loses the step, or all it has if that is less; it never goes below 0 |
| AdapterPolicy.DecayTicksClosedForm | Source/WinDualSense/Private/WinDualSenseDevice.cpp:362-363 | after k ticks a counter has lost k steps, saturating at 0 |
| AdapterPolicy.DecayReachesZero | Source/WinDualSense/Private/WinDualSenseDevice.cpp:362-363 | with a nonzero step a counter reaches 0 within as many ticks as its value, and stays there |
| AdapterPolicy.HighByte | Source/WinDualSense/Private/WinDualSenseDevice.cpp:365-366 | the byte sent to a motor is the counter's high byte: a value 0..255 whose multiple of 0x100 is within one byte below the counter |
| AdapterPolicy.HighByteMonotone | Source/WinDualSense/Private/WinDualSenseDevice.cpp:365-366 | a larger counter never sends a smaller byte |
| AdapterPolicy.RumbleByteNonIncreasing | Source/WinDualSense/Private/WinDualSenseDevice.cpp:362-366 | the byte sent to a motor never increases under decay |
| AdapterPolicy.PlayerLedsAfter | Source/WinDualSense/Private/WinDualSenseDevice.cpp:379-386 | the bitmask is nonzero exactly when the right rumble byte is, and then it is MIDDLE with fade on at HIGH; otherwise fade and brightness keep their values |
| AdapterPolicy.TriggerTypeAfter | Source/WinDualSense/Private/WinDualSenseDevice.cpp:389-402 | continuous resistance exactly when the reading is 0xFF or it was continuous and the reading is not 0x00; none exactly in the mirrored case; otherwise unchanged |
| AdapterPolicy.TriggerTypeFollowsLastExtreme | Source/WinDualSense/Private/WinDualSenseDevice.cpp:389-402 | after any readings the type is set by the last reading at an end of travel (0xFF continuous, 0x00 none), or is the initial type if there was none |
| AdapterPolicy.MicLedAfter | Source/WinDualSense/Private/WinDualSenseDevice.cpp:405-410 | ON exactly when the mic button is held or it was ON and the PS button is up; OFF exactly when the mic button is up and the PS button is held or it was OFF |
| AdapterPolicy.MicLedNeverStartsPulse | Source/WinDualSense/Private/WinDualSenseDevice.cpp:405-410 | the mic LED never becomes PULSE unless it already was |
| AdapterPolicy.LeftEffectAfter | Source/WinDualSense/Private/WinDualSenseDevice.cpp:412-414 | the left effect gets the given tag, section start 0x00 and end 0x60, and its other bytes are kept |
| AdapterPolicy.RightEffectAfter | Source/WinDualSense/Private/WinDualSenseDevice.cpp:416-418 | the right effect gets the given tag, continuous start 0x00 and force 0xFF, and its other bytes are kept |
| AdapterPolicy.EffectsOverClearPads | Source/WinDualSense/Private/WinDualSenseDevice.cpp:412-418 | over clear padding the blocks written are exactly [0x00, 0x60, 0, 0, 0, 0] on the left and [0x00, 0xFF, 0, 0, 0, 0] on the right |
| AdapterPolicy.LeftEffectAsRead | Source/WinDualSense/Private/WinDualSenseDevice.cpp:412-414 | read through the union, the left effect is a section from 0x00 to 0x60, which respects the documented end ≥ start, or, tagged continuous, a force of 0x60 |
| AdapterPolicy.RightEffectAsRead | Source/WinDualSense/Private/WinDualSenseDevice.cpp:416-418 | read through the union, the right effect is a continuous resistance from 0x00 at force 0xFF, or none |
| DualSenseDevice.Probe | Source/WinDualSense/Private/WinDualSenseDevice.cpp:154-217 | every button type but MAX_COUNT tests exactly one single-bit mask on one fixed input byte |
| DualSenseDevice.ProbesDisjoint | Source/WinDualSense/Private/WinDualSenseDevice.cpp:154-217 | no two button types test a common bit |
| DualSenseDevice.ReadingIsOwnBit | Source/WinDualSense/Private/WinDualSenseDevice.cpp:154-217 | flipping another type's bit never changes a button's reading, and flipping its own bit always does |
| DualSenseDevice.RegistrationsShape | Source/WinDualSense/Private/WinDualSenseDevice.cpp:14-39 | seventeen buttons, each type and key once, all keyed; touchpad, mic and MAX_COUNT are never registered |
| DualSenseDevice.PressedTracksState | Source/WinDualSense/Public/WinDualSense_Struct.h:27-71 | a button pressed exactly when its state is held stays so after a step, probed or not |
| DualSenseDevice.EventOf | Source/WinDualSense/Private/WinDualSenseDevice.cpp:219-234 | NONE dispatches nothing; any other state dispatches one event for controller 0 under the button's key: pressed for PRESS and REPEAT, a repeat only for REPEAT, released for RELEASE |
| DualSenseDevice.EventOnTick | Source/WinDualSense/Private/WinDualSenseDevice.cpp:219-234 | by reading and previous hold: pressed and not a repeat on the rising edge, a repeat while held, released on the falling edge, nothing while idle |
| DualSenseDevice.DispatchedEvents | Source/WinDualSense/Private/WinDualSenseDevice.cpp:150-235 | a pass dispatches no more events than there are buttons, each for controller 0 and under a registered key |
| DualSenseDevice.DispatchOncePerKey | Source/WinDualSense/Private/WinDualSenseDevice.cpp:150-235 | over distinct keys (as `RegistrationsShape` gives), no two events of a pass carry the same key |
| DualSenseDevice.DispatchReportsActive | Source/WinDualSense/Private/WinDualSenseDevice.cpp:150-235 | over distinct keys, a button's key is among a pass's event keys exactly when the button is not in NONE |
| DualSenseDevice.IdleButtonsSilent | Source/WinDualSense/Private/WinDualSenseDevice.cpp:219-234 | a pass over buttons all in NONE dispatches nothing |
| DualSenseDevice.OutputStep | Source/WinDualSense/Private/WinDualSenseDevice.cpp:356-421 | after a tick the multiplier matches the transport, the intensity is unspent, the motor bytes never exceed the old counters' high bytes, the player LEDs are lit exactly when the right motor byte is nonzero, and clear padding stays clear |
| DualSenseDevice.OutputStepByField | Source/WinDualSense/Private/WinDualSenseDevice.cpp:356-418 | registers that satisfy each of the output rules field by field are exactly the step's result |
| DualSenseDevice.TriggerEffectsWritten | Source/WinDualSense/Private/WinDualSenseDevice.cpp:412-418 | over clear padding both effects handed to the library are fully determined: the left and right types over [0x00, 0x60, 0, 0, 0, 0] and [0x00, 0xFF, 0, 0, 0, 0] |
| DualSenseDevice.TriggerTypesIndependent | Source/WinDualSense/Private/WinDualSenseDevice.cpp:388-402 | over any run of ticks each trigger's type is the hysteresis over its own readings only |
| DualSenseDevice.RumbleInert | Source/WinDualSense/Private/WinDualSenseDevice.cpp:362-386 | from zeroed counters and an unspent intensity, every tick sends 0 to both motors and clears the player LEDs |
| DualSenseDevice.SpentIntensityRearms | Source/WinDualSense/Private/WinDualSenseDevice.cpp:371-376 | once the intensity is spent, the next tick re-arms both counters to 0xFF00 after sending the decayed bytes |
| DualSenseDevice.AddButton | Source/WinDualSense/Private/WinDualSenseDevice.cpp:14-35 | each `Buttons.Add` appends one new, idle button object under the next registration's key, keeping the earlier ones |
| DualSenseDevice.StepButtons | Source/WinDualSense/Private/WinDualSenseDevice.cpp:150-235 | every button keeps its key and steps on its own bit, and the events are those of the new states, in map order |
| DualSenseDevice.UpdateButton | Source/WinDualSense/Private/WinDualSenseDevice.cpp:152-234 | one loop pass: the button steps on its bit (MAX_COUNT does not move) and yields the event of its new state |
| DualSenseDevice.Device.constructor | Source/WinDualSense/Private/WinDualSenseDevice.cpp:9-60 | seventeen distinct idle buttons under their keys, zeroed input and output states, no trigger resistance, zero counters, count 0 |
| DualSenseDevice.Device.UpdateButtons | Source/WinDualSense/Private/WinDualSenseDevice.cpp:148-236 | every button steps on its own bit of the input and its pressed flag becomes that bit, each button stays pressed exactly when its state is held, and the events are those of the new states, in map order |
| DualSenseDevice.Device.UpdateOutputs | Source/WinDualSense/Private/WinDualSenseDevice.cpp:356-421 | the output registers move by `OutputStep` and the new output state is written; the buttons are untouched |
| DualSenseDevice.Device.DecayRumble | Source/WinDualSense/Private/WinDualSenseDevice.cpp:359-376 | the multiplier follows the transport, both counters decay and their high bytes are sent, and a spent intensity re-arms both counters to 0xFF00 |
| DualSenseDevice.Device.UpdateIndicators | Source/WinDualSense/Private/WinDualSenseDevice.cpp:378-418 | the player-LED, trigger-type and mic-LED rules, then both trigger effects under the new types |
| DualSenseDevice.Device.SendControllerEvents | Source/WinDualSense/Private/WinDualSenseDevice.cpp:72-84 | a successful read steps the buttons and the outputs, dispatches and writes, and leaves the context alone, with every button pressed exactly when its new state is held; a failed one only enumerates, re-initialises and reconnects, writes nothing and leaves buttons and outputs alone |
| DualSenseDevice.Device.Update | Source/WinDualSense/Private/WinDualSenseDevice.cpp:75-78 | the buttons step and dispatch, then the outputs step and are written, with the invariant kept (every button pressed exactly when its state is held) and the context untouched |
| DualSenseDevice.Device.Reconnect | Source/WinDualSense/Private/WinDualSenseDevice.cpp:79-83 | enumerate into 16 entries, initialise from entry 0, reconnect; the count and context are the library's replies |
| DualSenseDevice.FreshDeviceInert | Source/WinDualSense/Private/WinDualSenseDevice.cpp:58-59 | the constructor's registers have clear padding, and every run of ticks from them sends 0 to both motors and clears the player LEDs |
| DualSenseLegacy.AnnouncedIndicesAsWritten | Source/WinDualSense/Private/WinDualSense.cpp:32-39 | the loop as written reads one buffer entry per reported controller, pass `k` reading entry `k` |
| DualSenseLegacy.AnnounceOverrunsBuffer | Source/WinDualSense/Private/WinDualSense.cpp:20-33 | with more than 16 controllers reported, the loop as written reads index 16 of the 16-entry buffer |
| DualSenseLegacy.AnnouncedIndices | Source/WinDualSense/Private/WinDualSense.cpp:32-39 | the capped loop reads as many entries as were reported, but at most 16 |
| DualSenseLegacy.AnnouncedIndicesInBounds | Source/WinDualSense/Private/WinDualSense.cpp:32-39 | the capped loop reads only buffer entries, in the order the loop as written reads them, and reads exactly the same entries when the controllers fit |
| DualSenseLegacy.Announce | Source/WinDualSense/Private/WinDualSense.cpp:32-39 | the capped loop announces each controller's transport from its own buffer entry, in buffer order |
| DualSenseLegacy.LegacyStep | Source/WinDualSense/Private/WinDualSense.cpp:124-179 | after a tick the intensity is unspent, the motor bytes never exceed the old counters' high bytes, the player LEDs are lit exactly when the right motor byte is nonzero, the left effect is tagged Section and the right one `rType`, and clear padding stays clear |
| DualSenseLegacy.LegacyStepByField | Source/WinDualSense/Private/WinDualSense.cpp:124-177 | registers that satisfy each of the legacy output rules field by field are exactly the step's result |
| DualSenseLegacy.LegacyEffectsWritten | Source/WinDualSense/Private/WinDualSense.cpp:169-177 | over clear padding the left effect written is a Section over [0x00, 0x60, 0, 0, 0, 0] and the right one type `rType` over [0x00, 0xFF, 0, 0, 0, 0] |
| DualSenseLegacy.LeftEffectIgnoresInput | Source/WinDualSense/Private/WinDualSense.cpp:169-172 | whatever the input, the left effect is the same, and read through the union it is a Section from 0x00 to 0x60 |
| DualSenseLegacy.RTypeFollowsRightTrigger | Source/WinDualSense/Private/WinDualSense.cpp:153-159 | over any run of ticks `rType` is the hysteresis over the right trigger's readings alone |
| DualSenseLegacy.LegacyRumbleInert | Source/WinDualSense/Private/WinDualSense.cpp:124-151 | from zeroed counters and an unspent intensity, every tick sends 0 to both motors and clears the player LEDs |
| DualSenseLegacy.LegacyMatchesDevice | Source/WinDualSense/Private/WinDualSense.cpp:124-177 | from corresponding registers both adapters produce the same rumble, LEDs, mic LED, right type and effect and left parameter bytes; only the left effect's tag differs |
| DualSenseLegacy.WinDualSense.constructor | Source/WinDualSense/Private/WinDualSense.cpp:17-53 | with no controller only the enumeration is made; otherwise the controllers are announced and entry 0 is opened, and a successful open zeroes both states; `rType` starts as no resistance and the counters at 0 |
| DualSenseLegacy.WinDualSense.SendControllerEvents | Source/WinDualSense/Private/WinDualSense.cpp:65-186 | a successful read moves the registers by `LegacyStep` and writes the output state; a failed one calls only `reconnectDevice` and leaves the registers as they were |
| DualSenseLegacy.WinDualSense.DecayRumble | Source/WinDualSense/Private/WinDualSense.cpp:124-141 | both counters decay by the transport's steps, their high bytes are sent, and a spent intensity re-arms them to 0xFF00 |
| DualSenseLegacy.WinDualSense.UpdateIndicators | Source/WinDualSense/Private/WinDualSense.cpp:143-177 | the player-LED, right-trigger type and mic-LED rules, a fixed Section effect on the left and type `rType` on the right |

## Left out

- The `ds5w_x64` library is not part of this model. Its HID report decoding and encoding, the Bluetooth checksum, enumeration, `initDeviceContext`, `reconnectDevice` and the HID reads and writes are known only by their prototypes. Each call is a `LibraryCall` value, and its replies are parameters.
- What `getDeviceInputState` leaves in `inState` is the parameter `polled`, on failure as well as on success, because the library's behaviour on a failed read is not visible.
- Analog sticks, analog triggers, gyroscope and accelerometer (`UpdateAnalogs`, `UpdateVectors`, `MapRangeClamped`, `UpdateAnalogState`) are left out: they are floating-point and produce `OnControllerAnalog`-style events. `UpdateInputs` is modelled as its `UpdateButtons` part.
- `Intensity_LED` and `intensity` are floats whose decrement is commented out in the source. Only the test `<= 0.0f` matters, so it is the boolean `intensitySpent`. The source never sets it, which is why the rumble is inert (`RumbleInert`, `LegacyRumbleInert`).
- Logging (`UE_LOG`, `DEBUG_Inputs`) is left out; the announce loop's output is the list of transports it would log.
- Also left out: `Tick`, `SetMessageHandler`, `Exec`, the force-feedback and light-colour overrides, `GetHapticDevice`, `IsGamepadAttached`, the plugin module's startup, shutdown and DLL loading, and key registration. These are engine plumbing with no logic.
- The engine's message handler is not modelled: the events a pass dispatches are returned as a sequence of `ButtonEvent` values.
- `Buttons` is a `TMap` that is only ever added to. Its iteration order is taken to be insertion order, and the map is modelled as the sequence of its values, with the types and keys in `Registrations`.
- The device constructor's seventeen `Buttons.Add` calls are modelled as a loop over `Registrations`, one `AddButton` per entry.
- `UpdateOutputs` and the legacy success branch are each split into two methods, `DecayRumble` and `UpdateIndicators`, in source order. Their composition is what each method's contract states.
- `DeviceContext` keeps only its path, transport and connection flag; the OS handle and the HID buffer belong to the library.
- In `FWinDualSense`'s constructor, uninitialised members (`DualSenseController`, `inState`, `outState` when no controller is found or the open fails) are arbitrary values. The return value of `enumDevices` is ignored, as in the source, and the local `btMul` it computes and never uses is not modelled.
- DualSenseLegacy.WinDualSense.constructor: runs the announce loop with its bound capped at 16 (see Findings), because the loop as written would read past the buffer.

## Findings

| source | as written | input that shows it | evidently intended | confidence | as-written member | corrected member |
|---|---|---|---|---|---|---|
| Source/WinDualSense/Private/WinDualSense.cpp:32-33 | the announce loop runs `i < controllersCount` and reads `infos[i]` from the 16-entry buffer `infos` | 17 controllers attached. `enumDevices` reports the total count through its length out-parameter (its header calls it the required total length, ds5w.h:583-585), so `controllersCount` is 17 and the loop reads `infos[16]` | loop to `min(controllersCount, 16)` | low to medium: depends on the library reporting the total rather than the number of entries written; not executed | DualSenseLegacy.AnnounceOverrunsBuffer | DualSenseLegacy.AnnouncedIndicesInBounds |
