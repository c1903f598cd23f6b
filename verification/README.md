# Lm500 liquid-level monitor emulator — a Dafny model

This project models the sequential core of the Lm500 emulator, a simulated
two-channel liquid-level monitor used in integration tests of its control-system driver.
It covers three parts:

- **Fill-tracker state hooks** (`states.py`). Each state (Idle, Filling-channel-1,
  Filling-channel-2, Filling-both) has entry, tick and exit hooks. These hooks update the
  per-channel bookkeeping: fill start, filling flag, fill time in minutes, fill status text
  and level. They are modelled in `states.dfy` as pure functions over the immutable
  record `States.FillContext`, whose per-channel fields are two-slot records
  (`Channels.PerChannel`). The two single-channel states are one definition that takes
  the channel as a parameter.
- **Device** (`device.py`). This covers the start-up settings, the fill request flag and
  the fill-status text (`device.dfy`).
- **Protocol handlers** (`interfaces/stream_interface.py`). This covers the decoded-call
  getters and setters (`stream_interface.dfy`). The interval text formatter and a parser
  for it are in `interval.dfy`.

The wall clock is a parameter `now` in integer seconds, and the tick length is a
parameter `dt`. The framework's level-approach primitive is a parameter `approach` with
no assumed properties. Python's `round` of the elapsed seconds divided by 60 is written
out in `Clock.MinutesRounded`, which rounds halves to even. For integer seconds, the
floating-point division is exact at every tie (60k+30 seconds).

The source revision is not self-consistent, and the model keeps it that way:

- `device.py` imports a `DefaultState` that `states.py` does not define.
- The transition table is empty.
- The device creates only two of the fields the state hooks use, `high_threshold` and
  `filling`. It never creates `fill_start`, `fill_time`, `fill_status_val`, `value`,
  `fill_speed` or `max_fill_time`. Its `high_threshold` also starts as the text "0 cm",
  while the hooks treat it as a number.

The bookkeeping record and the device record are therefore separate, and the two fields
they share are not linked (see "## Left out"). Each hook is
modelled on its own. `Hooks.RunAll` applies any sequence of hooks, and no transition
guards are invented. The record's fill start is `NotStarted | StartedAt(t)`, because
the emulator's "not started" value is the integer 0 while a real start is a timestamp.
Computing an elapsed time from the integer 0 raises a type error. The model represents
this as a `Raised` step that carries the record as the hook left it: the level has
already moved when the error is raised.

Behaviours of the code that the model keeps as written:

- The Filling-both exit marks "Timeout" only for a channel that reached the high
  threshold and ran over time. The single-channel exit marks any channel that ran over
  time, whatever its level.
- No exit hook clears the filling flag or the start time.
- The mode setter writes an attribute that the mode readback never reads.
- The interval setter does not clamp its fields.

## Model

| member | source | states |
|---|---|---|
| States.ResetFill | system_tests/lewis_emulators/Lm500/states.py:8-13 | the channel's start becomes "not started", filling false and fill time 0; its status is afterwards Off or Timeout, and Timeout exactly when it was Timeout before; the other channel, all levels and the settings are untouched |
| States.IdleOnEntry | system_tests/lewis_emulators/Lm500/states.py:16-18 | on both channels: not started, not filling, fill time 0, status Off or Timeout (Timeout exactly when it was before); levels and settings untouched |
| States.SingleOnEntry | system_tests/lewis_emulators/Lm500/states.py:21-23 | (also lines 41-43) the channel's start becomes `now` and its flag, fill time, status and all levels are untouched; the other channel is not started, not filling, with fill time 0 and status Off or Timeout (Timeout exactly when it was before) |
| States.SingleInState | system_tests/lewis_emulators/Lm500/states.py:27-33 | (also lines 47-54) the channel's level becomes approach(old level, high threshold, fill speed, dt); it succeeds exactly when the channel has a start, and then the fill time is the rounded minutes since that start; otherwise it raises for that channel with the level already moved; starts, flags, statuses, the other channel and the settings are untouched |
| States.SingleOnExit | system_tests/lewis_emulators/Lm500/states.py:35-37 | (also lines 56-58) fill time over the limit marks the channel Timeout; otherwise the record is unchanged; nothing but that status changes |
| States.BothOnEntry | system_tests/lewis_emulators/Lm500/states.py:63-69 | exactly one start time is written, with no reset: channel 1's when it has none, else channel 2's; all other fields unchanged |
| States.BothInState | system_tests/lewis_emulators/Lm500/states.py:73-85 | both levels move by the approach primitive; it succeeds exactly when both channels have a start, else raises for channel 1 if it has none, then channel 2; on success both fill times are the rounded minutes since their starts; a raise on channel 1 leaves both fill times as they were, a raise on channel 2 leaves channel 1's new fill time written |
| States.BothOnExit | system_tests/lewis_emulators/Lm500/states.py:87-93 | a channel becomes Timeout when its level equals the high threshold and its fill time is over the limit; every other status and every other field is unchanged |
| Clock.MinutesRounded | system_tests/lewis_emulators/Lm500/states.py:33 | the result is within half a minute of the elapsed seconds, and even on an exact half: Python's round-half-to-even of seconds/60 |
| Clock.ElapsedMinutes | system_tests/lewis_emulators/Lm500/states.py:33 | the rounded minutes between start and now: within half a minute of the elapsed seconds, even on an exact half, non-negative when now is not before start |
| Clock.MinutesRoundedUnique | system_tests/lewis_emulators/Lm500/states.py:33 | any whole minute count within half a minute of the seconds, and even on a tie, equals `MinutesRounded` |
| Clock.WholeMinutes | system_tests/lewis_emulators/Lm500/states.py:33 | a start exactly k minutes ago reads as k minutes |
| Hooks.Run | system_tests/lewis_emulators/Lm500/states.py:7-93 | every hook keeps a Timeout status, never sets a channel filling, and leaves the threshold, speed and time limit alone |
| Hooks.RunAll | system_tests/lewis_emulators/Lm500/states.py:7-93 | any sequence of hook calls keeps the same three invariants: Timeout is sticky, no hook starts a fill flag, the settings never change |
| FillProperties.ResetFillIdempotent | system_tests/lewis_emulators/Lm500/states.py:8-13 | resetting a channel twice equals resetting it once |
| FillProperties.IdleOnEntryIdempotent | system_tests/lewis_emulators/Lm500/states.py:16-18 | entering Idle twice equals entering it once |
| FillProperties.SingleEntryThenTick | system_tests/lewis_emulators/Lm500/states.py:21-33 | a tick after a single-channel entry at `start` succeeds with fill time within half a minute of now - start, and the other channel is not started, not filling, with fill time 0 |
| FillProperties.SingleThenBoth | system_tests/lewis_emulators/Lm500/states.py:63-69 | going from a single-channel state to Filling-both keeps the running channel's start and starts only the other one, after which Filling-both ticks succeed |
| FillProperties.BothAfterIdleRaises | system_tests/lewis_emulators/Lm500/states.py:66-85 | entering Filling-both straight from Idle starts channel 1 only, so the first tick raises for channel 2, with channel 1's fill time already written |
| FillProperties.TimeoutSurvivesIdle | system_tests/lewis_emulators/Lm500/states.py:12-18 | a Timeout written by a single-channel exit is still there after entering Idle |
| FillProperties.BothExitSparesUnreachedChannel | system_tests/lewis_emulators/Lm500/states.py:87-93 | a channel over the time limit below the threshold is marked Timeout by the single-channel exit but keeps its status through the Filling-both exit |
| FillProperties.ExitsAgreeAtThreshold | system_tests/lewis_emulators/Lm500/states.py:87-93 | for a channel at the threshold, both exits give the same status |
| Device.Fill | system_tests/lewis_emulators/Lm500/device.py:37-38 | the channel's flag is true, and it is added if it was absent; every other channel's flag and every other field is unchanged |
| Device.FillStatus | system_tests/lewis_emulators/Lm500/device.py:40-44 | raises a key error exactly when the channel has no flag; otherwise "2 min" exactly when the flag is set, and "Off" exactly when it is not |
| Device.FillThenStatus | system_tests/lewis_emulators/Lm500/device.py:37-44 | after a fill request the channel's status is "2 min" |
| Device.FillIdempotent | system_tests/lewis_emulators/Lm500/device.py:37-38 | requesting a fill twice equals requesting it once |
| Device.FillLeavesOtherStatus | system_tests/lewis_emulators/Lm500/device.py:37-44 | a fill request does not change another channel's status |
| Device.InitialFillStatus | system_tests/lewis_emulators/Lm500/device.py:23 | at start-up channel 1 reads "Off" and channel 2 reads "2 min" |
| Device.InitialData | system_tests/lewis_emulators/Lm500/device.py:8-23 | the start-up device: flags {1: off, 2: on}, types {1: 4, 2: 27} with the default channel 1 typed 4, units "cm", mode "Sample/Hold", interval "0:0:0", boost "OFF", output 0, error mode 0, status "0,0,0", thresholds, sensor length and both measurements the text "0 cm", alarm threshold "10 cm", and no set_mode attribute |
| StreamInterface.ResolveChannel | system_tests/lewis_emulators/Lm500/interfaces/stream_interface.py:73-74 | (also lines 84-85 and 130-131) a request naming a channel uses it as given; a request naming none uses the default channel |
| StreamInterface.GetBoost | system_tests/lewis_emulators/Lm500/interfaces/stream_interface.py:66-67 | writing the readback back with the boost setter leaves the device unchanged, so it is the stored boost mode; "OFF" at start-up |
| StreamInterface.GetOutput | system_tests/lewis_emulators/Lm500/interfaces/stream_interface.py:69-70 | writing the readback back with the output setter leaves the device unchanged; 0 at start-up |
| StreamInterface.GetChannel | system_tests/lewis_emulators/Lm500/interfaces/stream_interface.py:77-78 | writing the readback back with the channel setter leaves the device unchanged; 1 at start-up |
| StreamInterface.GetError | system_tests/lewis_emulators/Lm500/interfaces/stream_interface.py:80-81 | writing the readback back with the error-mode setter leaves the device unchanged; 0 at start-up |
| StreamInterface.GetInterval | system_tests/lewis_emulators/Lm500/interfaces/stream_interface.py:94-95 | returns the stored interval text as it is; a readback of the HH:MM:SS form is exactly the text the interval setter writes for its fields, so setting them again changes nothing; "0:0:0" at start-up |
| StreamInterface.GetMode | system_tests/lewis_emulators/Lm500/interfaces/stream_interface.py:108-109 | returns the stored sample mode, which no successful mode request changes; "Sample/Hold" at start-up |
| StreamInterface.GetStatus | system_tests/lewis_emulators/Lm500/interfaces/stream_interface.py:111-112 | returns the stored status word verbatim; "0,0,0" at start-up |
| StreamInterface.GetUnits | system_tests/lewis_emulators/Lm500/interfaces/stream_interface.py:114-115 | returns the stored units; an accepted spelling written back changes nothing; "cm" at start-up |
| ProtocolProperties.SetterReadbacks | system_tests/lewis_emulators/Lm500/interfaces/stream_interface.py:66-157 | the boost, output, channel and error-mode readbacks return what their setters stored; the units readback returns an accepted unit as given and "%" for "PERCENT" |
| ProtocolProperties.SetModeKeepsReadback | system_tests/lewis_emulators/Lm500/interfaces/stream_interface.py:108-150 | a successful mode request leaves the mode readback as it was |
| StreamInterface.GetType | system_tests/lewis_emulators/Lm500/interfaces/stream_interface.py:72-75 | returns the type code of the named channel, or of the default channel if none is named; raises a key error exactly when that channel has no type |
| StreamInterface.GetFill | system_tests/lewis_emulators/Lm500/interfaces/stream_interface.py:83-86 | the named or default channel's status: succeeds exactly when it has a flag, otherwise raises a key error for that channel; "2 min" exactly when the flag is set and "Off" exactly when it is clear |
| StreamInterface.SetFill | system_tests/lewis_emulators/Lm500/interfaces/stream_interface.py:129-132 | afterwards the fill readback for the same request reads "2 min"; the resolved channel's key is added if absent, every other channel's flag is kept, and no other field changes |
| StreamInterface.SetBoost | system_tests/lewis_emulators/Lm500/interfaces/stream_interface.py:117-118 | the boost readback returns the argument verbatim; no other field changes |
| StreamInterface.SetOutput | system_tests/lewis_emulators/Lm500/interfaces/stream_interface.py:120-121 | the output readback returns the argument; no other field changes |
| StreamInterface.SetChannel | system_tests/lewis_emulators/Lm500/interfaces/stream_interface.py:123-124 | the channel readback returns the argument; no other field changes |
| StreamInterface.SetError | system_tests/lewis_emulators/Lm500/interfaces/stream_interface.py:126-127 | the error-mode readback returns the argument; no other field changes |
| StreamInterface.SetHigh | system_tests/lewis_emulators/Lm500/interfaces/stream_interface.py:134-135 | the high threshold holds the given number; no other field changes |
| StreamInterface.SetLow | system_tests/lewis_emulators/Lm500/interfaces/stream_interface.py:140-141 | the low threshold holds the given number; no other field changes |
| StreamInterface.SetInterval | system_tests/lewis_emulators/Lm500/interfaces/stream_interface.py:137-138 | for fields 0..99, the interval readback is 8 characters and parses back to (hour, minute, second); with any field outside 0..99 it is not of the HH:MM:SS form, since nothing is clamped; only the interval changes |
| StreamInterface.SetMode | system_tests/lewis_emulators/Lm500/interfaces/stream_interface.py:148-150 | succeeds exactly for "0", "S" and "C", storing "Disabled", "Sample/Hold" or "Continuous" in the set_mode attribute; any other code raises a key error; the mode readback is never changed and no other field changes |
| StreamInterface.SetUnits | system_tests/lewis_emulators/Lm500/interfaces/stream_interface.py:152-157 | "CM", "IN" and "%" are stored verbatim; "PERCENT" stores "%"; anything else leaves the device unchanged without raising; no field other than units changes |
| ProtocolProperties.DefaultChannelFallback | system_tests/lewis_emulators/Lm500/interfaces/stream_interface.py:72-132 | a type readback, fill readback or fill request with no channel equals the same request naming the default channel |
| ProtocolProperties.ChannelSelectsType | system_tests/lewis_emulators/Lm500/interfaces/stream_interface.py:123-124 | after selecting channel c, the type readback with no channel equals the type readback of c |
| ProtocolProperties.InitialType | system_tests/lewis_emulators/Lm500/device.py:12-13 | at start-up the type readback is 4 (default channel 1), and channel 2's is 27 |
| ProtocolProperties.SetUnitsOutcome | system_tests/lewis_emulators/Lm500/interfaces/stream_interface.py:152-157 | after any unit request the units are unchanged or one of CM, IN, %; repeating the request changes nothing more |
| ProtocolProperties.InitialIntervalNotPadded | system_tests/lewis_emulators/Lm500/device.py:17 | the start-up interval "0:0:0" is not of the HH:MM:SS form the setter writes |
| ProtocolProperties.IntervalReadback | system_tests/tests/lm500.py:124 | setting 10, 20, 30 reads back as "10:20:30" |
| ProtocolProperties.UnclampedIntervalReadback | system_tests/lewis_emulators/Lm500/interfaces/stream_interface.py:137-138 | setting 200, 70, 0 reads back as "200:70:00": the fields are stored unclamped |
| Interval.Pad2 | system_tests/lewis_emulators/Lm500/interfaces/stream_interface.py:138 | `{n:02}`: for n >= 0, at least two decimal digits denoting n, exactly two below 100, and no leading zero when wider than two, at least three characters from 100 up; for n < 0, a minus sign followed by the digits of -n |
| Interval.Digits | system_tests/lewis_emulators/Lm500/interfaces/stream_interface.py:138 | a non-empty string of decimal digits with no leading zero, one digit exactly below 10, at least three from 100 up |
| Interval.DigitsRoundTrip | system_tests/lewis_emulators/Lm500/interfaces/stream_interface.py:138 | reading back the decimal digits of n gives n |
| Interval.FormatInterval | system_tests/lewis_emulators/Lm500/interfaces/stream_interface.py:138 | for fields 0..99 the text has 8 characters, two-digit fields and colons at positions 2 and 5; with any field outside 0..99 the unclamped text does not parse as HH:MM:SS |
| Interval.ParseInterval | system_tests/lewis_emulators/Lm500/interfaces/stream_interface.py:138 | a parsed HH:MM:SS text yields fields in 0..99 |
| Interval.FormatThenParse | system_tests/lewis_emulators/Lm500/interfaces/stream_interface.py:137-138 | for fields 0..99, parsing the stored interval gives back (hour, minute, second) |
| Interval.ParseThenFormat | system_tests/lewis_emulators/Lm500/interfaces/stream_interface.py:137-138 | every HH:MM:SS text is the stored form of the fields it parses to, so on 0..99 formatting and parsing are inverse bijections |
| Interval.InRangeParsesBack | system_tests/lewis_emulators/Lm500/interfaces/stream_interface.py:137-138 | for any fields: if all three lie in 0..99, parsing the stored interval gives them back |
| Interval.ParsedIsFormatted | system_tests/lewis_emulators/Lm500/interfaces/stream_interface.py:137-138 | for any text: if it parses as HH:MM:SS, it is exactly the stored form of the parsed fields |
| Interval.TwoHundredSeventyZero | system_tests/lewis_emulators/Lm500/interfaces/stream_interface.py:138 | the formatter turns 200, 70, 0 into "200:70:00" |
| Interval.TenTwentyThirty | system_tests/tests/lm500.py:116-135 | the formatter turns 10, 20, 30 into "10:20:30" |

## Left out

- `approaches.linear` belongs to the simulation framework and is not part of this model. It is the parameter `approach`. The contracts say what it is called with and which field receives its result, not how it moves the level.
- `datetime.now()` is the parameter `now`, in integer seconds. Sub-second timestamps are not modelled. The Filling-both tick reads the clock twice, once per channel's fill time; the model uses one `now` for both.
- Logging calls in the hooks and in `handle_error` are left out: they have no effect on state.
- Transition guards, the state-machine driver, the initial state and `DefaultState` are left out. None of them exists in the code (the table is empty and the imported state is undefined). `Hooks.RunAll` applies arbitrary hook sequences instead.
- Start-up values of the fill-tracker fields (fill start, fill time, status, level, fill speed, time limit) are left out. The device never creates them, so `States.FillContext` has no initial value.
- The `CmdBuilder` command table and the line terminators are framework wiring. The handlers are modelled on their decoded arguments.
- `get_alarm`, `get_high`, `get_low`, `get_length`, `get_measurement` and `set_measurement` are left out, because they call device methods that are not defined. `get_identity` is left out because it reads a device attribute that is never set. The default-channel rule those channel handlers share is `StreamInterface.ResolveChannel`.
- `set_channel` called with no argument would store `None`. The command table only invokes it with an integer, so the model takes an integer.
- Interval clamping and status-bit decoding happen in the driver's records, not in the emulator, and are not modelled.
- The shared fields `high_threshold` and `filling` are not coupled. In the emulator a state's context is the device, so these are the same attributes in `device.py` and `states.py`. The model keeps them twice: `Device.Device` and `States.FillContext` are unlinked. So the model does not show a reset's cleared flag reaching `fill_status`, or `set_high` changing the hooks' target. It also does not show the start-up text threshold "0 cm" reaching `approaches.linear` and the threshold comparisons of the hooks.
- Levels and thresholds are `real`, not floating point. Equality of a level with the high threshold is exact.
- Interval.ParseInterval: reads only the eight-character HH:MM:SS form. The setter's text for fields outside 0..99 (wider or signed fields) is not parsed back.
