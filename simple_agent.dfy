/** The stand-alone polling agent. It reads the simulator's snapshot as raw JSON with a
    default for every missing key, remembers the wall-clock time each room was last seen
    occupied, and switches lights on for occupants or an imminent meeting, off after a
    delay without occupants, and re-sets the brightness when it drifts from the target.
    Times are whole seconds; a time that is missing or fails to parse is `None`. */
module SimpleAgent {
  import opened Basics
  import opened Models
  import opened Gateway
  import Agent

  // Fixed configuration of the agent object.
  /** Set by the constructor but read nowhere in the decision. */
  const DaylightThreshold: real := 0.3
  const MinutesBeforeMeeting: int := 1
  const MinutesToTurnOff: int := 5

  // ---------------------------------------------------------------------------
  // The snapshot as raw JSON: `None` is a missing key

  datatype RawLight = RawLight(id: Option<string>, state: Option<string>, brightness: Option<int>)

  /** A meeting entry; a time is `None` when the key is missing or not an ISO timestamp. */
  datatype RawMeeting = RawMeeting(startTime: Option<int>, endTime: Option<int>)

  datatype RawRoom = RawRoom(
    id: Option<string>, name: Option<string>, peopleCount: Option<int>,
    lights: Option<seq<RawLight>>, scheduledMeetings: Option<seq<RawMeeting>>)

  /** A non-empty snapshot; an empty or failed fetch is `None` one level up. */
  datatype RawState = RawState(
    simulationTime: Option<int>, powerOutage: Option<bool>,
    daylightIntensity: Option<real>, rooms: Option<seq<RawRoom>>)

  // The defaults applied when reading each key.
  function RoomId(r: RawRoom): string { r.id.GetOr("") }
  function People(r: RawRoom): int { r.peopleCount.GetOr(0) }
  function RoomLights(r: RawRoom): seq<RawLight> { r.lights.GetOr([]) }
  function Meetings(r: RawRoom): seq<RawMeeting> { r.scheduledMeetings.GetOr([]) }
  function LightId(l: RawLight): string { l.id.GetOr("") }
  predicate IsOn(l: RawLight) { l.state.GetOr("OFF") == "ON" }
  function LightBrightness(l: RawLight): int { l.brightness.GetOr(100) }
  function Rooms(s: RawState): seq<RawRoom> { s.rooms.GetOr([]) }
  predicate Outage(s: RawState) { s.powerOutage.GetOr(false) }
  function Daylight(s: RawState): real { s.daylightIntensity.GetOr(1.0) }

  function Abs(x: int): nat { if x < 0 then -x else x }

  // ---------------------------------------------------------------------------
  // Target brightness

  /** `calculate_brightness`: 100 % in the dark down to 30 % in full daylight. */
  function CalculateBrightness(daylight: real): (b: int)
    ensures 30 <= b <= 100
  {
    Clamp(30, 100, Trunc(100.0 - daylight * 70.0))
  }

  /** Both agent variants compute the same target: this one is the other with its default configuration. */
  lemma SameTargetAsLightAgent(daylight: real)
    ensures CalculateBrightness(daylight) == Agent.CalculateBrightness(Agent.DefaultConfig, daylight)
  {
    assert Agent.DimmedLevel(Agent.DefaultConfig, daylight) == 100.0 - daylight * 70.0;
  }

  /** Darkness gives full brightness, full daylight the 30 % floor. */
  lemma TargetEndpoints()
    ensures CalculateBrightness(0.0) == 100
    ensures CalculateBrightness(1.0) == 30
  {
    SameTargetAsLightAgent(0.0);
    SameTargetAsLightAgent(1.0);
    Agent.BrightnessEndpoints(Agent.DefaultConfig);
  }

  /** More daylight never raises the target. */
  lemma TargetNonIncreasing(d1: real, d2: real)
    requires d1 <= d2
    ensures CalculateBrightness(d2) <= CalculateBrightness(d1)
  {
    SameTargetAsLightAgent(d1);
    SameTargetAsLightAgent(d2);
    Agent.BrightnessNonIncreasing(Agent.DefaultConfig, d1, d2);
  }

  // ---------------------------------------------------------------------------
  // Meetings

  /** A meeting counts when its start parses and lies between now and
      `MinutesBeforeMeeting` minutes ahead, or when both times parse and it is under way. */
  predicate MeetingMatches(m: RawMeeting, simulationTime: int) {
    && m.startTime.Some?
    && (|| 0 <= m.startTime.value - simulationTime <= 60 * MinutesBeforeMeeting
        || (m.endTime.Some? && m.startTime.value <= simulationTime <= m.endTime.value))
  }

  predicate MeetingSoon(meetings: seq<RawMeeting>, simulationTime: int) {
    exists i :: 0 <= i < |meetings| && MeetingMatches(meetings[i], simulationTime)
  }

  /** The window in which a meeting keeps its room lit: from `MinutesBeforeMeeting` minutes
      before its start until its end, or until its start when the end is missing or earlier;
      never, when the start does not parse. */
  lemma MeetingWindow(m: RawMeeting, t: int)
    ensures m.startTime.None? ==> !MeetingMatches(m, t)
    ensures m.startTime.Some? && m.endTime.Some? && m.startTime.value <= m.endTime.value ==>
      (MeetingMatches(m, t) <==> m.startTime.value - 60 * MinutesBeforeMeeting <= t <= m.endTime.value)
    ensures m.startTime.Some? && (m.endTime.None? || m.endTime.value < m.startTime.value) ==>
      (MeetingMatches(m, t) <==> m.startTime.value - 60 * MinutesBeforeMeeting <= t <= m.startTime.value)
  {
  }

  // ---------------------------------------------------------------------------
  // Presence and the switch-off delay

  /** `should_turn_off`: a room never seen occupied may be switched off at once, any other
      only once `MinutesToTurnOff` minutes of wall-clock time have passed since. */
  predicate ShouldTurnOff(lastPeopleTime: map<string, int>, roomId: string, currentTime: int) {
    roomId !in lastPeopleTime || currentTime - lastPeopleTime[roomId] >= 60 * MinutesToTurnOff
  }

  /** Once due, a switch-off stays due as the clock advances. */
  lemma TurnOffMonotone(lastPeopleTime: map<string, int>, roomId: string, t1: int, t2: int)
    requires t1 <= t2 && ShouldTurnOff(lastPeopleTime, roomId, t1)
    ensures ShouldTurnOff(lastPeopleTime, roomId, t2)
  {
  }

  /** The presence update for one room: occupied rooms are stamped with the clock. */
  function Record(lastPeopleTime: map<string, int>, room: RawRoom, now: int): map<string, int> {
    if People(room) > 0 then lastPeopleTime[RoomId(room) := now] else lastPeopleTime
  }

  /** A room just seen occupied is not switched off before the delay has passed, and is from then on. */
  lemma GracePeriod(lastPeopleTime: map<string, int>, room: RawRoom, seen: int, now: int)
    requires People(room) > 0
    ensures ShouldTurnOff(Record(lastPeopleTime, room, seen), RoomId(room), now)
      <==> now >= seen + 60 * MinutesToTurnOff
  {
  }

  /** The presence map after the updates for `rooms`, in order. */
  function PresenceAfter(lastPeopleTime: map<string, int>, rooms: seq<RawRoom>, now: int): map<string, int>
    decreases rooms
  {
    if rooms == [] then lastPeopleTime
    else
      var n := |rooms| - 1;
      Record(PresenceAfter(lastPeopleTime, rooms[..n], now), rooms[n], now)
  }

  function OccupiedIds(rooms: seq<RawRoom>): set<string> {
    set r | r in rooms && People(r) > 0 :: RoomId(r)
  }

  /** The presence map gains or changes exactly the ids of occupied rooms, all stamped `now`;
      every other entry is left as it was. */
  lemma {:induction false} PresenceWrittenOnlyForOccupants(
    lastPeopleTime: map<string, int>, rooms: seq<RawRoom>, now: int)
    ensures PresenceAfter(lastPeopleTime, rooms, now).Keys == lastPeopleTime.Keys + OccupiedIds(rooms)
    ensures forall id :: id in OccupiedIds(rooms) ==> PresenceAfter(lastPeopleTime, rooms, now)[id] == now
    ensures forall id :: id in lastPeopleTime && id !in OccupiedIds(rooms) ==>
      PresenceAfter(lastPeopleTime, rooms, now)[id] == lastPeopleTime[id]
  {
    if rooms != [] {
      var n := |rooms| - 1;
      PresenceWrittenOnlyForOccupants(lastPeopleTime, rooms[..n], now);
      assert rooms == rooms[..n] + [rooms[n]];
      assert OccupiedIds(rooms)
        == OccupiedIds(rooms[..n]) + (if People(rooms[n]) > 0 then {RoomId(rooms[n])} else {});
    }
  }

  // ---------------------------------------------------------------------------
  // Per-light rule

  /** The request one light gets, given the room's verdict, the target and whether
      the switch-off delay has passed. A switch-off carries brightness 100. */
  function LightCommand(shouldBeOn: bool, target: int, turnOff: bool, l: RawLight): (c: Option<Command>)
    ensures c.Some? ==> c.value.lightId == LightId(l)
    ensures c.Some? && c.value.state == ON
      <==> shouldBeOn && (!IsOn(l) || Abs(LightBrightness(l) - target) > 10)
    ensures c.Some? && c.value.state == OFF <==> !shouldBeOn && IsOn(l) && turnOff
    ensures c.Some? && c.value.state == ON ==> c.value.brightness == Some(target)
    ensures c.Some? && c.value.state == OFF ==> c.value.brightness == Some(100)
  {
    if shouldBeOn && !IsOn(l) then Some(SetLight(LightId(l), ON, Some(target)))
    else if !shouldBeOn && IsOn(l) then
      (if turnOff then Some(SetLight(LightId(l), OFF, Some(100))) else None)
    else if IsOn(l) && Abs(LightBrightness(l) - target) > 10 then Some(SetLight(LightId(l), ON, Some(target)))
    else None
  }

  /** The light as the next snapshot reports it once its request succeeded. */
  function Reported(l: RawLight, c: Command): (r: RawLight)
    ensures r.id == l.id && IsOn(r) == (c.state == ON)
  {
    l.(state := Some(LightStateName(c.state)), brightness := c.brightness)
  }

  /** A light whose request succeeded gets none the next time round (same verdict,
      target and delay). */
  lemma ActuatedLightQuiet(shouldBeOn: bool, target: int, turnOff: bool, l: RawLight)
    requires LightCommand(shouldBeOn, target, turnOff, l).Some?
    ensures LightCommand(shouldBeOn, target, turnOff,
      Reported(l, LightCommand(shouldBeOn, target, turnOff, l).value)).None?
  {
  }

  // ---------------------------------------------------------------------------
  // Rooms and the cycle

  function LightsCommands(shouldBeOn: bool, target: int, turnOff: bool, lights: seq<RawLight>): seq<Command> {
    if lights == [] then []
    else
      var n := |lights| - 1;
      LightsCommands(shouldBeOn, target, turnOff, lights[..n]) + LightCommand(shouldBeOn, target, turnOff, lights[n]).ToSeq()
  }

  /** Requests for one room, given the presence map after its own update. */
  function RoomCommands(presence: map<string, int>, room: RawRoom, target: int, simulationTime: int, now: int)
    : seq<Command>
  {
    var shouldBeOn := People(room) > 0 || MeetingSoon(Meetings(room), simulationTime);
    LightsCommands(shouldBeOn, target, ShouldTurnOff(presence, RoomId(room), now), RoomLights(room))
  }

  function RoomsCommands(
    lastPeopleTime: map<string, int>, rooms: seq<RawRoom>, target: int, simulationTime: int, now: int)
    : seq<Command>
    decreases rooms
  {
    if rooms == [] then []
    else
      var n := |rooms| - 1;
      RoomsCommands(lastPeopleTime, rooms[..n], target, simulationTime, now)
        + RoomCommands(PresenceAfter(lastPeopleTime, rooms, now), rooms[n], target, simulationTime, now)
  }

  /** The requests of one cycle. `parseClock` is the clock read when the snapshot's
      simulation time is missing or unparseable; `now` the clock read before the rooms. */
  function CycleCommands(fetched: Option<RawState>, lastPeopleTime: map<string, int>, parseClock: int, now: int)
    : seq<Command>
  {
    if fetched.None? || Outage(fetched.value) then []
    else
      var s := fetched.value;
      RoomsCommands(lastPeopleTime, Rooms(s), CalculateBrightness(Daylight(s)),
        s.simulationTime.GetOr(parseClock), now)
  }

  /** The presence map after one cycle. */
  function CyclePresence(fetched: Option<RawState>, lastPeopleTime: map<string, int>, now: int): map<string, int> {
    if fetched.None? || Outage(fetched.value) then lastPeopleTime
    else PresenceAfter(lastPeopleTime, Rooms(fetched.value), now)
  }

  // ---------------------------------------------------------------------------
  // The agent object

  class SimpleLightAgent {
    var running: bool
    /** Room id to the wall-clock time it was last seen occupied. */
    var lastPeopleTime: map<string, int>

    constructor ()
      ensures !running && lastPeopleTime == map[]
    {
      running := false;
      lastPeopleTime := map[];
    }

    /** Asks the polling loop to finish; nothing else changes. */
    method Stop()
      modifies this`running
      ensures !running
    {
      running := false;
    }

    /** `has_upcoming_meeting`: scans the meetings in order, skipping those whose times do
        not parse, and answers as soon as one counts. */
    method HasUpcomingMeeting(meetings: seq<RawMeeting>, simulationTime: int) returns (found: bool)
      ensures found <==> MeetingSoon(meetings, simulationTime)
    {
      for i := 0 to |meetings|
        invariant forall j :: 0 <= j < i ==> !MeetingMatches(meetings[j], simulationTime)
      {
        var meeting := meetings[i];
        if meeting.startTime.None? {
          continue;
        }
        var startTime := meeting.startTime.value;
        var secondsUntil := startTime - simulationTime;
        if 0 <= secondsUntil <= 60 * MinutesBeforeMeeting {
          return true;
        }
        if meeting.endTime.None? {
          continue;
        }
        if startTime <= simulationTime <= meeting.endTime.value {
          return true;
        }
      }
      return false;
    }

    /** The inner loop of a cycle: the requests for one room's lights, in order. It reads the
        presence map (through the switch-off delay) and changes nothing. */
    method LightRequests(roomId: string, lights: seq<RawLight>, shouldBeOn: bool, targetBrightness: int, now: int)
      returns (sent: seq<Command>)
      ensures sent == LightsCommands(shouldBeOn, targetBrightness, ShouldTurnOff(lastPeopleTime, roomId, now), lights)
    {
      sent := [];
      for j := 0 to |lights|
        invariant sent == LightsCommands(shouldBeOn, targetBrightness,
          ShouldTurnOff(lastPeopleTime, roomId, now), lights[..j])
      {
        assert lights[..j + 1][..j] == lights[..j];
        var light := lights[j];
        var lightId := light.id.GetOr("");
        var isOn := light.state.GetOr("OFF") == "ON";
        var lightBrightness := light.brightness.GetOr(100);
        if shouldBeOn && !isOn {
          sent := sent + [SetLight(lightId, ON, Some(targetBrightness))];
        } else if !shouldBeOn && isOn {
          if ShouldTurnOff(lastPeopleTime, roomId, now) {
            sent := sent + [SetLight(lightId, OFF, Some(100))];
          }
        } else if isOn && Abs(lightBrightness - targetBrightness) > 10 {
          sent := sent + [SetLight(lightId, ON, Some(targetBrightness))];
        }
      }
      assert lights[..|lights|] == lights;
    }

    /** One cycle on the fetched snapshot (`None` when the fetch failed or came back empty).
        Returns the requests sent; their answers only choose a log line. */
    method RunCycle(fetched: Option<RawState>, parseClock: int, now: int) returns (sent: seq<Command>)
      modifies this`lastPeopleTime
      ensures sent == CycleCommands(fetched, old(lastPeopleTime), parseClock, now)
      ensures lastPeopleTime == CyclePresence(fetched, old(lastPeopleTime), now)
    {
      sent := [];
      if fetched.None? {
        return;
      }
      var state := fetched.value;
      var powerOutage := state.powerOutage.GetOr(false);
      var daylight := state.daylightIntensity.GetOr(1.0);
      var rooms := state.rooms.GetOr([]);
      var simulationTime := state.simulationTime.GetOr(parseClock);
      if powerOutage {
        return;
      }
      var targetBrightness := CalculateBrightness(daylight);
      for k := 0 to |rooms|
        invariant lastPeopleTime == PresenceAfter(old(lastPeopleTime), rooms[..k], now)
        invariant sent == RoomsCommands(old(lastPeopleTime), rooms[..k], targetBrightness, simulationTime, now)
      {
        assert rooms[..k + 1][..k] == rooms[..k];
        var room := rooms[k];
        var roomId := room.id.GetOr("");
        var peopleCount := room.peopleCount.GetOr(0);
        var lights := room.lights.GetOr([]);
        var meetings := room.scheduledMeetings.GetOr([]);
        if peopleCount > 0 {
          lastPeopleTime := lastPeopleTime[roomId := now];
        }
        var meetingSoon := HasUpcomingMeeting(meetings, simulationTime);
        var shouldBeOn := peopleCount > 0 || meetingSoon;
        var roomSent := LightRequests(roomId, lights, shouldBeOn, targetBrightness, now);
        sent := sent + roomSent;
      }
      assert rooms[..|rooms|] == rooms;
    }
  }

  // ---------------------------------------------------------------------------
  // Properties of a cycle

  /** Without a snapshot, or during a power outage, nothing is sent and no presence recorded. */
  lemma IdleWithoutSnapshotOrPower(
    fetched: Option<RawState>, lastPeopleTime: map<string, int>, parseClock: int, now: int)
    requires fetched.None? || Outage(fetched.value)
    ensures CycleCommands(fetched, lastPeopleTime, parseClock, now) == []
    ensures CyclePresence(fetched, lastPeopleTime, now) == lastPeopleTime
  {
  }

  lemma {:induction false} LightsCommandsContain(
    shouldBeOn: bool, target: int, turnOff: bool, lights: seq<RawLight>, j: nat)
    requires j < |lights| && LightCommand(shouldBeOn, target, turnOff, lights[j]).Some?
    ensures LightCommand(shouldBeOn, target, turnOff, lights[j]).value
      in LightsCommands(shouldBeOn, target, turnOff, lights)
  {
    var n := |lights| - 1;
    if j < n {
      assert lights[..n][j] == lights[j];
      LightsCommandsContain(shouldBeOn, target, turnOff, lights[..n], j);
    }
  }

  lemma {:induction false} RoomsCommandsContain(
    lastPeopleTime: map<string, int>, rooms: seq<RawRoom>, target: int, simulationTime: int, now: int,
    k: nat, c: Command)
    requires k < |rooms|
    requires c in RoomCommands(PresenceAfter(lastPeopleTime, rooms[..k + 1], now), rooms[k], target, simulationTime, now)
    ensures c in RoomsCommands(lastPeopleTime, rooms, target, simulationTime, now)
  {
    var n := |rooms| - 1;
    if k == n {
      assert rooms[..k + 1] == rooms;
    } else {
      assert rooms[..n][..k + 1] == rooms[..k + 1];
      RoomsCommandsContain(lastPeopleTime, rooms[..n], target, simulationTime, now, k, c);
    }
  }

  /** With power, every light of an occupied room that is not on is switched on at the target. */
  lemma OccupiedRoomLightsSwitchedOn(
    s: RawState, lastPeopleTime: map<string, int>, parseClock: int, now: int, k: nat, j: nat)
    requires !Outage(s)
    requires k < |Rooms(s)| && People(Rooms(s)[k]) > 0
    requires j < |RoomLights(Rooms(s)[k])| && !IsOn(RoomLights(Rooms(s)[k])[j])
    ensures SetLight(LightId(RoomLights(Rooms(s)[k])[j]), ON, Some(CalculateBrightness(Daylight(s))))
      in CycleCommands(Some(s), lastPeopleTime, parseClock, now)
  {
    var rooms := Rooms(s);
    var target := CalculateBrightness(Daylight(s));
    var simulationTime := s.simulationTime.GetOr(parseClock);
    var presence := PresenceAfter(lastPeopleTime, rooms[..k + 1], now);
    var lights := RoomLights(rooms[k]);
    var turnOff := ShouldTurnOff(presence, RoomId(rooms[k]), now);
    LightsCommandsContain(true, target, turnOff, lights, j);
    RoomsCommandsContain(lastPeopleTime, rooms, target, simulationTime, now, k,
      SetLight(LightId(lights[j]), ON, Some(target)));
  }

  lemma {:induction false} HeldLightsOnlySwitchedOn(shouldBeOn: bool, target: int, lights: seq<RawLight>)
    ensures forall c :: c in LightsCommands(shouldBeOn, target, false, lights) ==> c.state == ON
  {
    if lights != [] {
      HeldLightsOnlySwitchedOn(shouldBeOn, target, lights[..|lights| - 1]);
    }
  }

  /** While every room of the snapshot was seen occupied less than `MinutesToTurnOff`
      minutes ago, a cycle switches nothing off. */
  lemma {:induction false} NoSwitchOffWithinGrace(
    lastPeopleTime: map<string, int>, rooms: seq<RawRoom>, target: int, simulationTime: int, now: int)
    requires forall r :: r in rooms ==>
      RoomId(r) in lastPeopleTime && now - lastPeopleTime[RoomId(r)] < 60 * MinutesToTurnOff
    ensures forall c :: c in RoomsCommands(lastPeopleTime, rooms, target, simulationTime, now) ==> c.state == ON
  {
    if rooms != [] {
      var n := |rooms| - 1;
      var room := rooms[n];
      NoSwitchOffWithinGrace(lastPeopleTime, rooms[..n], target, simulationTime, now);
      PresenceWrittenOnlyForOccupants(lastPeopleTime, rooms, now);
      var presence := PresenceAfter(lastPeopleTime, rooms, now);
      assert !ShouldTurnOff(presence, RoomId(room), now);
      HeldLightsOnlySwitchedOn(People(room) > 0 || MeetingSoon(Meetings(room), simulationTime),
        target, RoomLights(room));
    }
  }

  // ---------------------------------------------------------------------------
  // The cycle as written: a stray name after the presence update

  datatype CycleOutcome =
    | Completed(sent: seq<Command>, presence: map<string, int>)
    | NameErrorRaised(presence: map<string, int>)

  /** `run_cycle` as written: evaluating the stray name that follows the first room's
      presence update raises `NameError`, before any light is visited. */
  function CycleAsWritten(fetched: Option<RawState>, lastPeopleTime: map<string, int>, parseClock: int, now: int)
    : (o: CycleOutcome)
    ensures o.Completed? ==> o.sent == []
  {
    if fetched.None? || Outage(fetched.value) || Rooms(fetched.value) == [] then Completed([], lastPeopleTime)
    else NameErrorRaised(Record(lastPeopleTime, Rooms(fetched.value)[0], now))
  }

  /** With power and at least one room, the cycle as written always raises, having
      updated only the first room's presence and sent nothing; otherwise it agrees
      with the corrected cycle. */
  lemma StrayNameAbortsCycle(fetched: Option<RawState>, lastPeopleTime: map<string, int>, parseClock: int, now: int)
    ensures fetched.Some? && !Outage(fetched.value) && Rooms(fetched.value) != [] ==>
      CycleAsWritten(fetched, lastPeopleTime, parseClock, now)
      == NameErrorRaised(PresenceAfter(lastPeopleTime, Rooms(fetched.value)[..1], now))
    ensures CycleAsWritten(fetched, lastPeopleTime, parseClock, now).Completed? ==>
      && CycleAsWritten(fetched, lastPeopleTime, parseClock, now).sent
         == CycleCommands(fetched, lastPeopleTime, parseClock, now)
      && CycleAsWritten(fetched, lastPeopleTime, parseClock, now).presence
         == CyclePresence(fetched, lastPeopleTime, now)
  {
    if fetched.Some? && !Outage(fetched.value) && Rooms(fetched.value) != [] {
      var rooms := Rooms(fetched.value);
      assert rooms[..1][..0] == [];
    }
  }

  /** An occupied room with one dark light, in the dark: the corrected cycle switches the
      light on at full brightness, the cycle as written raises without a request. */
  lemma StrayNameLeavesOccupiedRoomDark(now: int)
    ensures var s := RawState(Some(0), Some(false), Some(0.0), Some([
        RawRoom(Some("r1"), Some("Room 1"), Some(1), Some([RawLight(Some("l1"), Some("OFF"), Some(0))]), None)]));
      && CycleAsWritten(Some(s), map[], 0, now) == NameErrorRaised(map["r1" := now])
      && CycleCommands(Some(s), map[], 0, now) == [SetLight("l1", ON, Some(100))]
  {
    var light := RawLight(Some("l1"), Some("OFF"), Some(0));
    var room := RawRoom(Some("r1"), Some("Room 1"), Some(1), Some([light]), None);
    var s := RawState(Some(0), Some(false), Some(0.0), Some([room]));
    TargetEndpoints();
    assert [room][..0] == [];
    assert [light][..0] == [];
    assert LightsCommands(true, 100, false, [light]) == [SetLight("l1", ON, Some(100))];
  }
}
