# LightAgent lighting decisions in Dafny

This project models the decision core of the LightAgent office-lighting controller and proves
properties of it. The controller polls a building simulator for a snapshot of rooms, lights,
occupancy, daylight and power. It then sends light-control requests. The repository holds two
variants, and both are modelled:

- **`LightAgent`** (`src/light_agent.py`, module `Agent`, properties in `AgentProperties`)
  - Works on validated snapshots (`src/models.py`, module `Models`).
  - Lights belong on exactly when there is power and somebody in the room.
  - The target brightness falls linearly with daylight from the maximum to the minimum.
  - Each light gets at most one request per cycle: switch on, switch off, or a brightness re-set.
  - It keeps a per-room record (`RoomState`) of what the client confirmed.
  - It keeps an action log with one entry per confirmed request.
- **`SimpleLightAgent`** (`simple_agent.py`, module `SimpleAgent`)
  - Reads the snapshot as raw JSON, with a default for every missing key.
  - Also lights a room for a meeting that starts within a minute or is under way.
  - Switches an empty room off only five minutes after it was last seen occupied. This is measured on the wall clock.
  - Re-sets the brightness when it is more than 10 % away from the target.

Shared pieces:

- `Basics` holds `Option`, Python's truncating `int()` and the `max(lo, min(hi, x))` clamp.
- `Gateway` describes a control request and the light it produces once it succeeds.

The network is an input to the model:

- A failed or empty fetch is `None`.
- For `LightAgent`, the client's answers are a sequence of booleans, one per light.
  - Each light gets at most one request, so this covers every possible client behaviour.
  - Without it, the log and the room record could not be described.
- `SimpleLightAgent` only logs its answers, so they are not modelled for it.

Both objects are Dafny classes whose methods update the fields the source updates:

- `roomStates` and `lastState` for `LightAgent`;
- `lastPeopleTime` for `SimpleLightAgent`;
- `running` for both.

Each method is proved equal to a specification function defined over prefixes of the
rooms and lights it walks. The lemmas are stated about those functions.

The absence delay of `SimpleLightAgent` is measured on the wall clock (`datetime.now()`), not on
the snapshot's simulation time. `RunCycle` receives the clock reading `now`, and the simulation
time is used only for meetings.

## Model

| member | source | states |
|---|---|---|
| Basics.Trunc | src/light_agent.py:102-104 | `int()` on a float truncates toward zero: the result is within one of the argument, on the zero side |
| Basics.TruncOfInt | src/light_agent.py:102-104 | truncating a whole number gives it back |
| Basics.TruncMonotone | src/light_agent.py:102-104 | truncation never reverses the order of two values |
| Basics.Clamp | src/light_agent.py:105 | the result lies in [lo, hi] when lo ≤ hi; it is the value itself when in range, lo below the range, hi above it, and lo whenever lo > hi |
| Basics.ClampMonotone | simple_agent.py:93 | clamping is monotone in the clamped value |
| Models.ParseLightState | src/models.py:12-15 | a light state is accepted exactly when it is spelled "ON" or "OFF" |
| Models.LightStateRoundTrip | src/models.py:12-15 | every state parses back from its own spelling |
| Models.ParsedStateHasItsName | src/models.py:12-15 | an accepted spelling is exactly the name of the state it parses to |
| Models.MakeLight | src/models.py:18-23 | a light record is accepted if and only if its brightness is in 0..100; the accepted light keeps every field |
| Models.MakeRoom | src/models.py:41-46 | a room keeps its id and name and any lights and people count it was given; each missing field independently takes its default (no lights, 0 people) |
| Models.RoomDefaults | src/models.py:45-46 | a room sent without lights and people count is empty and unoccupied |
| Models.MakeState | src/models.py:54-59 | a snapshot is accepted if and only if its daylight intensity is in [0, 1]; an accepted snapshot with valid rooms is valid |
| Agent.EnsureRoom | src/light_agent.py:85-89 | the table gains exactly the requested id; existing entries are never reset; a new entry has the defaults |
| Agent.EnsureRoomIdempotent | src/light_agent.py:85-89 | asking for the same room twice changes nothing more |
| Agent.CalculateBrightness | src/light_agent.py:91-105 | without auto brightness the target is the maximum; otherwise it stays within [min, max] |
| Agent.DimmedLevelNonIncreasing | src/light_agent.py:101-104 | the unclamped level does not rise with daylight |
| Agent.BrightnessNonIncreasing | src/light_agent.py:91-105 | for every configuration, more daylight never raises the target (with min > max the clamp pins it to the minimum) |
| Agent.BrightnessEndpoints | src/light_agent.py:91-105 | with auto brightness, darkness gives the maximum and full daylight the minimum |
| Agent.ShouldLightsBeOn | src/light_agent.py:107-127 | lights belong on if and only if there is no outage and somebody is present; the reason is the outage, the occupancy when the lights belong on, and "nobody present" otherwise |
| Agent.DarknessDownwardClosed | src/light_agent.py:129-131 | if a daylight level counts as dark (below the threshold), every darker level does too |
| Agent.CommandChoice | src/light_agent.py:146-176 | each light gets exactly one outcome (switch on, switch off, re-set, nothing), each characterised in both directions; a request is sent if and only if the light is not already where the verdict wants it |
| Agent.LightAgent.constructor | src/light_agent.py:67-83 | the given configuration or the default one; empty room table, not running, no snapshot seen |
| Agent.LightAgent.GetRoomState | src/light_agent.py:85-89 | the table becomes `EnsureRoom` of the old one; the returned entry is the old one when the id was known |
| Agent.LightAgent.HandleLight | src/light_agent.py:147-176 | the request, log entry and record update for one light match the step definitions |
| Agent.LightAgent.ProcessRoom | src/light_agent.py:133-178 | the requests, the log and the new table equal the room-walk definitions, with the record written into the table |
| Agent.LightAgent.ProcessState | src/light_agent.py:180-194 | the logs and requests of the rooms are concatenated in order; the table follows every room in turn; the snapshot is remembered |
| Agent.LightAgent.Stop | src/light_agent.py:281-283 | the agent is no longer running |
| AgentProperties.CommandsFollowLightOrder | src/light_agent.py:146-176 | requests address the room's lights in order, each at most once (a subsequence of the light ids, no longer than the light list) |
| AgentProperties.NeededCommandSent | src/light_agent.py:146-176 | every light not already where the verdict wants it gets its request |
| AgentProperties.OccupiedRoomSwitchesOnDarkLights | src/light_agent.py:143-157 | with power and people present, every light that is not on is switched on at the target brightness |
| AgentProperties.LitLightsOff | src/light_agent.py:159-161 | every request in the list of switch-offs for lit lights is an OFF without brightness |
| AgentProperties.OutageSwitchesOffLitLights | src/light_agent.py:143-166 | during an outage a room's requests are exactly a switch-off for each lit light, in order |
| AgentProperties.OutageOnlySwitchesOff | src/light_agent.py:119-120 | during an outage every request of the whole snapshot is a plain switch-off |
| AgentProperties.QuietIffSettled | src/light_agent.py:146-176 | a room gets no request if and only if every one of its lights is settled |
| AgentProperties.SuccessfulCycleSettles | src/light_agent.py:146-176 | once every request of a cycle has succeeded, the same snapshot produces no further requests |
| AgentProperties.FailedRequestsChangeNothing | src/light_agent.py:149-176 | when the client confirms nothing, the log is empty and the room record is unchanged |
| AgentProperties.ConfirmedRequestsLogged | src/light_agent.py:149-176 | there are never more log entries than requests, and exactly as many when all are confirmed |
| AgentProperties.StatesAfterFrame | src/light_agent.py:187-194 | after a snapshot the table's ids are the old ids plus the snapshot's room ids; other rooms' entries are untouched |
| AgentProperties.UnconfirmedRoomOnlyInserts | src/light_agent.py:140-176 | a room whose requests all fail only gets its default entry |
| AgentProperties.ThresholdIgnored | src/light_agent.py:27-28 | the daylight threshold never changes a room's requests: no decision reads it |
| AgentProperties.UnconfirmedSnapshotOnlyInserts | src/light_agent.py:187-194 | a snapshot whose requests all fail only inserts default entries |
| SimpleAgent.CalculateBrightness | simple_agent.py:90-93 | the target always lies in 30..100 |
| SimpleAgent.SameTargetAsLightAgent | simple_agent.py:90-93 | the target equals `LightAgent`'s under its default configuration |
| SimpleAgent.TargetEndpoints | simple_agent.py:90-93 | darkness gives 100 and full daylight 30 |
| SimpleAgent.TargetNonIncreasing | simple_agent.py:90-93 | more daylight never raises the target |
| SimpleAgent.MeetingWindow | simple_agent.py:95-113 | a meeting with an unparseable start never counts. One with a parsed start counts from one minute before the start until its end, or only until its start when the end is missing or earlier (both directions) |
| SimpleAgent.TurnOffMonotone | simple_agent.py:115-122 | once a switch-off is due it stays due as the clock advances |
| SimpleAgent.GracePeriod | simple_agent.py:115-122 | a room just seen occupied becomes due for switch-off exactly five minutes later, not before |
| SimpleAgent.PresenceWrittenOnlyForOccupants | simple_agent.py:147-155 | the presence map gains or changes exactly the ids of occupied rooms, all stamped with the clock; every other entry stays |
| SimpleAgent.LightCommand | simple_agent.py:159-184 | ON at the target when the light should be on and is off or off-target by more than 10; OFF (brightness 100) only when it should be off, is on and the delay has passed; each case in both directions |
| SimpleAgent.Reported | simple_agent.py:73-77 | a light after its request reports the requested state |
| SimpleAgent.ActuatedLightQuiet | simple_agent.py:159-184 | a light whose request succeeded gets no request the next time round |
| SimpleAgent.SimpleLightAgent.constructor | simple_agent.py:28-40 | not running, no presence recorded |
| SimpleAgent.SimpleLightAgent.Stop | simple_agent.py:56-58 | the agent is no longer running |
| SimpleAgent.SimpleLightAgent.HasUpcomingMeeting | simple_agent.py:95-113 | true if and only if some meeting of the list counts (false for an empty list) |
| SimpleAgent.SimpleLightAgent.LightRequests | simple_agent.py:161-184 | the requests for a room's lights, in order, as the per-light rule gives them |
| SimpleAgent.SimpleLightAgent.RunCycle | simple_agent.py:124-184 | the requests and the new presence map equal the cycle definitions |
| SimpleAgent.IdleWithoutSnapshotOrPower | simple_agent.py:126-142 | without a snapshot, or during an outage, nothing is sent and no presence is recorded |
| SimpleAgent.OccupiedRoomLightsSwitchedOn | simple_agent.py:154-173 | with power, every light of an occupied room that is not on is switched on at the target |
| SimpleAgent.HeldLightsOnlySwitchedOn | simple_agent.py:175-179 | while the delay has not passed, a room gets no switch-off |
| SimpleAgent.NoSwitchOffWithinGrace | simple_agent.py:175-179 | while every room was seen occupied less than five minutes ago, a cycle switches nothing off |
| SimpleAgent.CycleAsWritten | simple_agent.py:154-157 | the cycle as written sends nothing when it completes |
| SimpleAgent.StrayNameAbortsCycle | simple_agent.py:154-157 | with power and at least one room, the cycle as written raises after the first room's presence update; otherwise it agrees with the corrected cycle |
| SimpleAgent.StrayNameLeavesOccupiedRoomDark | simple_agent.py:156 | for one occupied dark room, the corrected cycle switches its light on at 100 % while the cycle as written raises without a request |

## Left out

- `main.py` is not part of this model. It holds the command line, signal handlers and event-loop start-up.
- `src/config.py` is not part of this model. It loads environment variables.
- HTTP transport (`src/simulator_client.py` `get_state`, `set_light_state`; `simple_agent.py` `get_state`, `set_light`) is not modelled.
  - The fetched snapshot is a parameter.
  - For `LightAgent`, whether a request succeeded is a parameter.
  - The request itself is a `Command` value.
- The polling loops are not modelled: `LightAgent.run` (src/light_agent.py:241-279) and `SimpleLightAgent.start` (simple_agent.py:42-54), with their sleeps, cancellation and catch-all handlers. Only `stop` is modelled.
- `_print_status` (src/light_agent.py:196-239) and all log messages are not modelled. This is console output.
  - `LightAgent`'s action log is modelled as structured `Action` values.
  - The reason text is modelled as a `Reason` value, not as formatted strings.
- `SimpleLightAgent` does not model the answers to its requests: they only choose a log line.
- The requests are awaited one after another in the source. The model returns them as one ordered list.
- Timestamps are whole seconds, and parsing is not modelled.
  - Parsing an ISO timestamp gives a value or `None`; sub-second precision is not modelled.
  - A comparison between time-zone-aware and naive times is not modelled. In the source it raises `TypeError`, and the meeting is skipped.
- Clock reads are parameters of `RunCycle`.
  - `parseClock` is the read that replaces an unparseable simulation time.
  - `now` is the read before the rooms.
- JSON values are assumed to have their documented types. A wrongly typed value, such as a non-object meeting entry that makes `.get` raise outside the handled exceptions, is not modelled.
- `PlannedMeeting` is declared as a datatype only: no code reads it, and `Room` has no meeting list.
- `NeedsLightDueToDarkness` is modelled but never used in a decision, as in the source. So the daylight threshold, documented at src/light_agent.py:27 as the level below which lights are switched on, has no effect (`ThresholdIgnored`). What it was meant to do is not evident from the code, so no corrected decision is modelled.
- Illumination (lux) balancing and broken-light tracking are not modelled: neither variant implements them.
- `SuccessfulCycleSettles` (through `Actuate`) and `ActuatedLightQuiet` (through `Reported`) assume how the simulator behaves, which is not part of this model. They assume it then reports the requested state, and the requested brightness when one was sent.
- Basics.Trunc: models the float arithmetic of `daylight * range` with exact reals, so IEEE-754 rounding just below a whole number is not captured.
- Agent.LightAgent.ProcessRoom: the room record is a value written back into the table once after the loop. The source instead mutates the dataclass held in the dict. Nothing reads the record in between, so the table that results is the same.

## Findings

| source | as written | input that shows it | evidently intended | confidence | as-written member | corrected member |
|---|---|---|---|---|---|---|
| simple_agent.py:156 | A bare name `e` follows the first room's presence update. It is undefined, so `NameError` leaves `run_cycle` and `start`, and the agent stops. No light is ever evaluated. | Any snapshot without a power outage that lists a room, e.g. one occupied room with one light OFF at daylight 0 | The line is absent, and every room's lights are evaluated, so that light is switched on at 100 % | high; not executed | SimpleAgent.CycleAsWritten | SimpleAgent.SimpleLightAgent.RunCycle |
