/** What the daylight-driven agent guarantees about the requests it sends,
    the log it keeps and the room records it updates. */
module AgentProperties {
  import opened Basics
  import opened Models
  import opened Gateway
  import opened Agent

  // ---------------------------------------------------------------------------
  // At most one request per light, in light order, and every needed one

  function LightIds(lights: seq<Light>): seq<string> {
    seq(|lights|, i requires 0 <= i < |lights| => lights[i].id)
  }

  function CommandIds(cs: seq<Command>): seq<string> {
    seq(|cs|, k requires 0 <= k < |cs| => cs[k].lightId)
  }

  /** `xs` is obtained from `ys` by deleting elements. */
  predicate IsSubsequence(xs: seq<string>, ys: seq<string>)
    decreases |ys|
  {
    if xs == [] then true
    else if ys == [] then false
    else
      || (xs[|xs| - 1] == ys[|ys| - 1] && IsSubsequence(xs[..|xs| - 1], ys[..|ys| - 1]))
      || IsSubsequence(xs, ys[..|ys| - 1])
  }

  /** The lights addressed by the requests are the room's lights with some left out:
      none twice, none out of order. */
  lemma {:induction false} CommandsFollowLightOrder(
    cfg: LightAgentConfig, shouldBeOn: bool, target: int, lights: seq<Light>)
    ensures |LightsCommands(cfg, shouldBeOn, target, lights)| <= |lights|
    ensures IsSubsequence(CommandIds(LightsCommands(cfg, shouldBeOn, target, lights)), LightIds(lights))
  {
    if lights != [] {
      var n := |lights| - 1;
      CommandsFollowLightOrder(cfg, shouldBeOn, target, lights[..n]);
      var pre := LightsCommands(cfg, shouldBeOn, target, lights[..n]);
      var step := StepCommands(cfg, shouldBeOn, target, lights[n]);
      var all := LightsCommands(cfg, shouldBeOn, target, lights);
      assert all == pre + step;
      assert LightIds(lights)[..n] == LightIds(lights[..n]);
      if step == [] {
        assert all == pre;
      } else {
        assert |step| == 1 && step[0].lightId == lights[n].id;
        assert CommandIds(all)[..|all| - 1] == CommandIds(pre);
        assert CommandIds(all)[|all| - 1] == LightIds(lights)[n];
      }
    }
  }

  /** A light that is not where the verdict wants it gets its request. */
  lemma {:induction false} NeededCommandSent(
    cfg: LightAgentConfig, shouldBeOn: bool, target: int, lights: seq<Light>, i: nat)
    requires i < |lights| && !Settled(cfg, shouldBeOn, target, lights[i])
    ensures CommandFor(Decide(cfg, shouldBeOn, target, lights[i]), lights[i], target).Some?
    ensures CommandFor(Decide(cfg, shouldBeOn, target, lights[i]), lights[i], target).value
      in LightsCommands(cfg, shouldBeOn, target, lights)
  {
    CommandChoice(cfg, shouldBeOn, target, lights[i]);
    var n := |lights| - 1;
    if i < n {
      assert lights[..n][i] == lights[i];
      NeededCommandSent(cfg, shouldBeOn, target, lights[..n], i);
    }
  }

  /** With power and people present, every light that is not on is switched on at the target. */
  lemma OccupiedRoomSwitchesOnDarkLights(cfg: LightAgentConfig, room: Room, state: SimulatorState, i: nat)
    requires !state.powerOutage && room.peopleCount > 0
    requires i < |room.lights| && room.lights[i].state != ON
    ensures TurnOn(room.lights[i].id, CalculateBrightness(cfg, state.daylightIntensity))
      in RoomCommands(cfg, room, state)
  {
    NeededCommandSent(cfg, true, CalculateBrightness(cfg, state.daylightIntensity), room.lights, i);
  }

  // ---------------------------------------------------------------------------
  // Power outage

  /** A switch-off request for each light that is on, in order. */
  function LitLightsOff(lights: seq<Light>): (cs: seq<Command>)
    ensures forall c :: c in cs ==> c.state == OFF && c.brightness.None?
  {
    if lights == [] then []
    else
      var n := |lights| - 1;
      LitLightsOff(lights[..n]) + (if lights[n].state == ON then [TurnOff(lights[n].id)] else [])
  }

  /** During an outage a room's requests are exactly: switch off every light that is on. */
  lemma {:induction false} OutageSwitchesOffLitLights(cfg: LightAgentConfig, room: Room, state: SimulatorState)
    requires state.powerOutage
    ensures RoomCommands(cfg, room, state) == LitLightsOff(room.lights)
  {
    OutageLightsOff(cfg, CalculateBrightness(cfg, state.daylightIntensity), room.lights);
  }

  lemma {:induction false} OutageLightsOff(cfg: LightAgentConfig, target: int, lights: seq<Light>)
    ensures LightsCommands(cfg, false, target, lights) == LitLightsOff(lights)
  {
    if lights != [] {
      OutageLightsOff(cfg, target, lights[..|lights| - 1]);
    }
  }

  /** During an outage every request of the whole snapshot is a plain switch-off. */
  lemma {:induction false} OutageOnlySwitchesOff(cfg: LightAgentConfig, state: SimulatorState, rooms: seq<Room>)
    requires state.powerOutage
    ensures forall c :: c in StateCommands(cfg, state, rooms) ==> c.state == OFF && c.brightness.None?
  {
    if rooms != [] {
      var n := |rooms| - 1;
      OutageOnlySwitchesOff(cfg, state, rooms[..n]);
      OutageSwitchesOffLitLights(cfg, rooms[n], state);
    }
  }

  // ---------------------------------------------------------------------------
  // Quiescence: no requests exactly when every light is settled, and one
  // fully confirmed cycle settles the room

  lemma {:induction false} QuietIffSettled(cfg: LightAgentConfig, shouldBeOn: bool, target: int, lights: seq<Light>)
    ensures LightsCommands(cfg, shouldBeOn, target, lights) == []
      <==> forall i :: 0 <= i < |lights| ==> Settled(cfg, shouldBeOn, target, lights[i])
  {
    if lights != [] {
      var n := |lights| - 1;
      QuietIffSettled(cfg, shouldBeOn, target, lights[..n]);
      CommandChoice(cfg, shouldBeOn, target, lights[n]);
      if forall i :: 0 <= i < |lights| ==> Settled(cfg, shouldBeOn, target, lights[i]) {
        forall i | 0 <= i < n ensures Settled(cfg, shouldBeOn, target, lights[..n][i]) {
          assert lights[..n][i] == lights[i];
        }
      }
      if LightsCommands(cfg, shouldBeOn, target, lights) == [] {
        forall i | 0 <= i < |lights| ensures Settled(cfg, shouldBeOn, target, lights[i]) {
          if i < n { assert lights[..n][i] == lights[i]; }
        }
      }
    }
  }

  /** A light as the simulator reports it after its request (if any) succeeded. */
  function ActuateLight(cfg: LightAgentConfig, shouldBeOn: bool, target: int, light: Light): Light {
    var c := CommandFor(Decide(cfg, shouldBeOn, target, light), light, target);
    if c.Some? then Actuate(light, c.value) else light
  }

  /** The room after every request of one cycle succeeded. */
  function ActuatedRoom(cfg: LightAgentConfig, room: Room, state: SimulatorState): Room {
    var shouldBeOn := ShouldLightsBeOn(room, state).0;
    var target := CalculateBrightness(cfg, state.daylightIntensity);
    room.(lights := seq(|room.lights|, i requires 0 <= i < |room.lights| =>
      ActuateLight(cfg, shouldBeOn, target, room.lights[i])))
  }

  /** Feeding the snapshot again after a fully confirmed cycle sends nothing more. */
  lemma SuccessfulCycleSettles(cfg: LightAgentConfig, room: Room, state: SimulatorState)
    ensures RoomCommands(cfg, ActuatedRoom(cfg, room, state), state) == []
  {
    var after := ActuatedRoom(cfg, room, state);
    var shouldBeOn := ShouldLightsBeOn(room, state).0;
    var target := CalculateBrightness(cfg, state.daylightIntensity);
    assert ShouldLightsBeOn(after, state).0 == shouldBeOn;
    forall i | 0 <= i < |after.lights|
      ensures Settled(cfg, shouldBeOn, target, after.lights[i])
    {
      CommandChoice(cfg, shouldBeOn, target, room.lights[i]);
    }
    QuietIffSettled(cfg, shouldBeOn, target, after.lights);
  }

  // ---------------------------------------------------------------------------
  // The log and the room record follow the client's answers

  /** When the client confirms nothing, the log is empty and the record unchanged. */
  lemma {:induction false} FailedRequestsChangeNothing(
    cfg: LightAgentConfig, shouldBeOn: bool, reason: Reason, target: int,
    lights: seq<Light>, replies: seq<bool>, rs: RoomState)
    requires |replies| == |lights|
    requires forall i :: 0 <= i < |replies| ==> !replies[i]
    ensures LightsActions(cfg, shouldBeOn, reason, target, lights, replies) == []
    ensures LightsTrack(cfg, shouldBeOn, target, lights, replies, rs) == rs
  {
    if lights != [] {
      var n := |lights| - 1;
      assert forall i :: 0 <= i < n ==> replies[..n][i] == replies[i];
      FailedRequestsChangeNothing(cfg, shouldBeOn, reason, target, lights[..n], replies[..n], rs);
    }
  }

  /** One log entry per confirmed request: never more entries than requests,
      and as many when every request is confirmed. */
  lemma {:induction false} ConfirmedRequestsLogged(
    cfg: LightAgentConfig, shouldBeOn: bool, reason: Reason, target: int,
    lights: seq<Light>, replies: seq<bool>)
    requires |replies| == |lights|
    ensures |LightsActions(cfg, shouldBeOn, reason, target, lights, replies)|
      <= |LightsCommands(cfg, shouldBeOn, target, lights)|
    ensures (forall i :: 0 <= i < |replies| ==> replies[i]) ==>
      |LightsActions(cfg, shouldBeOn, reason, target, lights, replies)|
      == |LightsCommands(cfg, shouldBeOn, target, lights)|
  {
    if lights != [] {
      var n := |lights| - 1;
      assert forall i :: 0 <= i < n ==> replies[..n][i] == replies[i];
      ConfirmedRequestsLogged(cfg, shouldBeOn, reason, target, lights[..n], replies[..n]);
    }
  }

  // ---------------------------------------------------------------------------
  // The room-state table across a snapshot

  /** After a snapshot the table holds an entry for exactly the old ids and the
      snapshot's room ids; ids of other rooms keep their entries. */
  lemma {:induction false} StatesAfterFrame(
    cfg: LightAgentConfig, m: map<string, RoomState>, state: SimulatorState,
    rooms: seq<Room>, replies: seq<seq<bool>>)
    requires Answers(rooms, replies)
    ensures StatesAfter(cfg, m, state, rooms, replies).Keys == m.Keys + RoomIds(rooms)
    ensures forall id :: id in m && id !in RoomIds(rooms) ==>
      StatesAfter(cfg, m, state, rooms, replies)[id] == m[id]
  {
    if rooms != [] {
      var n := |rooms| - 1;
      AnswersPrefix(rooms, replies, n);
      StatesAfterFrame(cfg, m, state, rooms[..n], replies[..n]);
      assert rooms == rooms[..n] + [rooms[n]];
      assert RoomIds(rooms) == RoomIds(rooms[..n]) + {rooms[n].id};
    }
  }

  /** When the client confirms none of a room's requests, the room only gets its default entry. */
  lemma UnconfirmedRoomOnlyInserts(
    cfg: LightAgentConfig, m: map<string, RoomState>, room: Room, state: SimulatorState, replies: seq<bool>)
    requires |replies| == |room.lights|
    requires forall j :: 0 <= j < |replies| ==> !replies[j]
    ensures RoomUpdate(cfg, m, room, state, replies) == EnsureRoom(m, room.id)
  {
    var m1 := EnsureRoom(m, room.id);
    var verdict := ShouldLightsBeOn(room, state);
    FailedRequestsChangeNothing(cfg, verdict.0, verdict.1, CalculateBrightness(cfg, state.daylightIntensity),
      room.lights, replies, m1[room.id]);
    assert m1[room.id := m1[room.id]] == m1;
  }

  /** When the client confirms nothing, processing a snapshot only inserts
      default entries for rooms seen for the first time. */
  lemma {:induction false} UnconfirmedSnapshotOnlyInserts(
    cfg: LightAgentConfig, m: map<string, RoomState>, state: SimulatorState,
    rooms: seq<Room>, replies: seq<seq<bool>>)
    requires Answers(rooms, replies)
    requires forall i, j :: 0 <= i < |replies| && 0 <= j < |replies[i]| ==> !replies[i][j]
    ensures StatesAfter(cfg, m, state, rooms, replies) == EnsureRooms(m, rooms)
  {
    if rooms != [] {
      var n := |rooms| - 1;
      AnswersPrefix(rooms, replies, n);
      assert forall i :: 0 <= i < n ==> replies[..n][i] == replies[i];
      UnconfirmedSnapshotOnlyInserts(cfg, m, state, rooms[..n], replies[..n]);
      UnconfirmedRoomOnlyInserts(cfg, StatesAfter(cfg, m, state, rooms[..n], replies[..n]),
        rooms[n], state, replies[n]);
    }
  }

  // ---------------------------------------------------------------------------
  // The daylight threshold is a dead setting

  lemma {:induction false} ThresholdIgnoredByLights(
    cfg: LightAgentConfig, threshold: real, shouldBeOn: bool, target: int, lights: seq<Light>)
    ensures LightsCommands(cfg.(daylightThreshold := threshold), shouldBeOn, target, lights)
      == LightsCommands(cfg, shouldBeOn, target, lights)
  {
    if lights != [] {
      ThresholdIgnoredByLights(cfg, threshold, shouldBeOn, target, lights[..|lights| - 1]);
    }
  }

  /** Whatever the daylight threshold, a room gets the same requests: no decision
      consults it. */
  lemma ThresholdIgnored(cfg: LightAgentConfig, threshold: real, room: Room, state: SimulatorState)
    ensures RoomCommands(cfg.(daylightThreshold := threshold), room, state) == RoomCommands(cfg, room, state)
  {
    var other := cfg.(daylightThreshold := threshold);
    assert CalculateBrightness(other, state.daylightIntensity) == CalculateBrightness(cfg, state.daylightIntensity);
    ThresholdIgnoredByLights(cfg, threshold, ShouldLightsBeOn(room, state).0,
      CalculateBrightness(cfg, state.daylightIntensity), room.lights);
  }
}
