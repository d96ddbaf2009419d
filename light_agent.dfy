/** The daylight-driven lighting agent: one snapshot in, one command per light
    at most, a per-room record of what it believes it switched. */
module Agent {
  import opened Basics
  import opened Models
  import opened Gateway

  datatype LightAgentConfig = LightAgentConfig(
    daylightThreshold: real,
    minBrightness: int,
    maxBrightness: int,
    autoBrightness: bool,
    pollInterval: real)

  const DefaultConfig := LightAgentConfig(0.3, 30, 100, true, 0.5)

  /** What the agent records about a room; the decisions never read it back. */
  datatype RoomState = RoomState(roomId: string, lightsOn: bool, currentBrightness: int)

  function NewRoomState(roomId: string): RoomState {
    RoomState(roomId, false, 100)
  }

  /** The room-state table once `roomId` has an entry: a fresh one only when it had none. */
  function EnsureRoom(m: map<string, RoomState>, roomId: string): (m': map<string, RoomState>)
    ensures m'.Keys == m.Keys + {roomId}
    ensures forall id :: id in m ==> m'[id] == m[id]
    ensures roomId !in m ==> m'[roomId] == NewRoomState(roomId)
  {
    if roomId in m then m else m[roomId := NewRoomState(roomId)]
  }

  /** Asking again for the same room neither adds nor resets anything. */
  lemma EnsureRoomIdempotent(m: map<string, RoomState>, roomId: string)
    ensures EnsureRoom(EnsureRoom(m, roomId), roomId) == EnsureRoom(m, roomId)
  {
  }

  // ---------------------------------------------------------------------------
  // Brightness and the on/off verdict

  /** The unclamped target: full brightness less the daylight's share of the range. */
  function DimmedLevel(cfg: LightAgentConfig, daylight: real): real {
    cfg.maxBrightness as real - daylight * (cfg.maxBrightness - cfg.minBrightness) as real
  }

  /** Target brightness: the maximum without auto brightness, otherwise a linear
      fall from the maximum (no daylight) to the minimum (full daylight), truncated and clamped. */
  function CalculateBrightness(cfg: LightAgentConfig, daylight: real): (b: int)
    ensures !cfg.autoBrightness ==> b == cfg.maxBrightness
    ensures cfg.minBrightness <= cfg.maxBrightness ==> cfg.minBrightness <= b <= cfg.maxBrightness
  {
    if !cfg.autoBrightness then cfg.maxBrightness
    else Clamp(cfg.minBrightness, cfg.maxBrightness, Trunc(DimmedLevel(cfg, daylight)))
  }

  lemma DimmedLevelNonIncreasing(cfg: LightAgentConfig, d1: real, d2: real)
    requires cfg.minBrightness <= cfg.maxBrightness
    requires d1 <= d2
    ensures DimmedLevel(cfg, d2) <= DimmedLevel(cfg, d1)
  {
    var range := (cfg.maxBrightness - cfg.minBrightness) as real;
    assert d2 * range - d1 * range == (d2 - d1) * range;
  }

  /** More daylight never asks for more artificial light, whatever the configuration:
      with the range inverted the clamp pins the target to the minimum. */
  lemma BrightnessNonIncreasing(cfg: LightAgentConfig, d1: real, d2: real)
    requires d1 <= d2
    ensures CalculateBrightness(cfg, d2) <= CalculateBrightness(cfg, d1)
  {
    if cfg.autoBrightness && cfg.minBrightness <= cfg.maxBrightness {
      DimmedLevelNonIncreasing(cfg, d1, d2);
      TruncMonotone(DimmedLevel(cfg, d2), DimmedLevel(cfg, d1));
      ClampMonotone(cfg.minBrightness, cfg.maxBrightness,
        Trunc(DimmedLevel(cfg, d2)), Trunc(DimmedLevel(cfg, d1)));
    }
  }

  /** Darkness gives the maximum, full daylight the minimum. */
  lemma BrightnessEndpoints(cfg: LightAgentConfig)
    requires cfg.autoBrightness && cfg.minBrightness <= cfg.maxBrightness
    ensures CalculateBrightness(cfg, 0.0) == cfg.maxBrightness
    ensures CalculateBrightness(cfg, 1.0) == cfg.minBrightness
  {
    assert DimmedLevel(cfg, 0.0) == cfg.maxBrightness as real;
    assert DimmedLevel(cfg, 1.0) == cfg.minBrightness as real;
    TruncOfInt(cfg.maxBrightness);
    TruncOfInt(cfg.minBrightness);
  }

  /** Why the verdict was reached (the source logs it as text). */
  datatype Reason = PowerOutage | Occupied(peopleCount: int) | NobodyPresent

  /** Lights belong on exactly when there is power and somebody in the room. */
  function ShouldLightsBeOn(room: Room, state: SimulatorState): (r: (bool, Reason))
    ensures r.0 <==> !state.powerOutage && room.peopleCount > 0
    ensures state.powerOutage ==> r.1 == PowerOutage
    ensures r.0 ==> r.1 == Occupied(room.peopleCount)
    ensures !state.powerOutage && room.peopleCount <= 0 ==> r.1 == NobodyPresent
  {
    if state.powerOutage then (false, PowerOutage)
    else if room.peopleCount > 0 then (true, Occupied(room.peopleCount))
    else (false, NobodyPresent)
  }

  predicate NeedsLightDueToDarkness(cfg: LightAgentConfig, daylight: real) {
    daylight < cfg.daylightThreshold
  }

  /** If some daylight level is dark enough, every darker level is too. */
  lemma DarknessDownwardClosed(cfg: LightAgentConfig, d1: real, d2: real)
    requires d1 <= d2
    ensures NeedsLightDueToDarkness(cfg, d2) ==> NeedsLightDueToDarkness(cfg, d1)
  {
  }

  // ---------------------------------------------------------------------------
  // The choice for one light

  /** The four outcomes for one light. */
  datatype Decision = SwitchOn | SwitchOff | Adjust | Keep

  function Decide(cfg: LightAgentConfig, shouldBeOn: bool, target: int, light: Light): Decision {
    var currentOn := light.state == ON;
    if shouldBeOn && !currentOn then SwitchOn
    else if !shouldBeOn && currentOn then SwitchOff
    else if shouldBeOn && currentOn && cfg.autoBrightness && light.brightness != target then Adjust
    else Keep
  }

  /** The request sent for a decision, if any. */
  function CommandFor(d: Decision, light: Light, target: int): Option<Command> {
    match d
    case SwitchOn => Some(TurnOn(light.id, target))
    case Adjust => Some(TurnOn(light.id, target))
    case SwitchOff => Some(TurnOff(light.id))
    case Keep => None
  }

  /** The light already is where the verdict wants it. */
  predicate Settled(cfg: LightAgentConfig, shouldBeOn: bool, target: int, light: Light) {
    if shouldBeOn then light.state == ON && (cfg.autoBrightness ==> light.brightness == target)
    else light.state != ON
  }

  /** Each light gets exactly one of: switch on, switch off, brightness re-set, nothing. */
  lemma CommandChoice(cfg: LightAgentConfig, shouldBeOn: bool, target: int, light: Light)
    ensures Decide(cfg, shouldBeOn, target, light) == SwitchOn <==> shouldBeOn && light.state != ON
    ensures Decide(cfg, shouldBeOn, target, light) == SwitchOff <==> !shouldBeOn && light.state == ON
    ensures Decide(cfg, shouldBeOn, target, light) == Adjust <==>
      shouldBeOn && light.state == ON && cfg.autoBrightness && light.brightness != target
    ensures Decide(cfg, shouldBeOn, target, light) == Keep <==> Settled(cfg, shouldBeOn, target, light)
    ensures CommandFor(Decide(cfg, shouldBeOn, target, light), light, target).Some? <==>
      !Settled(cfg, shouldBeOn, target, light)
  {
  }

  /** An entry of the action log, written only once the client confirmed the request. */
  datatype Action =
    | SwitchedOn(lightId: string, reason: Reason, brightness: int)
    | SwitchedOff(lightId: string, reason: Reason)
    | BrightnessChanged(lightId: string, from: int, to: int)

  function ActionFor(d: Decision, light: Light, reason: Reason, target: int): Action
    requires d != Keep
  {
    match d
    case SwitchOn => SwitchedOn(light.id, reason, target)
    case SwitchOff => SwitchedOff(light.id, reason)
    case Adjust => BrightnessChanged(light.id, light.brightness, target)
  }

  /** What a confirmed request does to the room's record. */
  function TrackStep(rs: RoomState, d: Decision, target: int): RoomState {
    match d
    case SwitchOn => rs.(lightsOn := true, currentBrightness := target)
    case SwitchOff => rs.(lightsOn := false)
    case Adjust => rs.(currentBrightness := target)
    case Keep => rs
  }

  // ---------------------------------------------------------------------------
  // One light at a time

  /** The request sent for one light: none or one. */
  function StepCommands(cfg: LightAgentConfig, shouldBeOn: bool, target: int, light: Light): seq<Command> {
    var c := CommandFor(Decide(cfg, shouldBeOn, target, light), light, target);
    if c.Some? then [c.value] else []
  }

  /** The log entry for one light: present only when a request was sent and confirmed. */
  function StepActions(
    cfg: LightAgentConfig, shouldBeOn: bool, reason: Reason, target: int, light: Light, reply: bool)
    : seq<Action>
  {
    var d := Decide(cfg, shouldBeOn, target, light);
    if d != Keep && reply then [ActionFor(d, light, reason, target)] else []
  }

  /** The room's record after one light: changed only by a confirmed request. */
  function StepTrack(
    cfg: LightAgentConfig, shouldBeOn: bool, target: int, light: Light, reply: bool, rs: RoomState)
    : RoomState
  {
    if reply then TrackStep(rs, Decide(cfg, shouldBeOn, target, light), target) else rs
  }

  // ---------------------------------------------------------------------------
  // One room: the walk over its lights, defined on prefixes

  /** The requests handed to the client, in light order. */
  function LightsCommands(cfg: LightAgentConfig, shouldBeOn: bool, target: int, lights: seq<Light>)
    : seq<Command>
  {
    if lights == [] then []
    else
      var n := |lights| - 1;
      LightsCommands(cfg, shouldBeOn, target, lights[..n]) + StepCommands(cfg, shouldBeOn, target, lights[n])
  }

  /** The action log; `replies[i]` is the client's answer to the request for `lights[i]`. */
  function LightsActions(
    cfg: LightAgentConfig, shouldBeOn: bool, reason: Reason, target: int,
    lights: seq<Light>, replies: seq<bool>): seq<Action>
    requires |replies| == |lights|
  {
    if lights == [] then []
    else
      var n := |lights| - 1;
      LightsActions(cfg, shouldBeOn, reason, target, lights[..n], replies[..n])
      + StepActions(cfg, shouldBeOn, reason, target, lights[n], replies[n])
  }

  /** The room's record after the walk, starting from `rs`. */
  function LightsTrack(
    cfg: LightAgentConfig, shouldBeOn: bool, target: int,
    lights: seq<Light>, replies: seq<bool>, rs: RoomState): RoomState
    requires |replies| == |lights|
  {
    if lights == [] then rs
    else
      var n := |lights| - 1;
      StepTrack(cfg, shouldBeOn, target, lights[n], replies[n],
        LightsTrack(cfg, shouldBeOn, target, lights[..n], replies[..n], rs))
  }

  /** The walks over `lights[..i + 1]` extend those over `lights[..i]` by one step. */
  lemma LightsWalkStep(
    cfg: LightAgentConfig, shouldBeOn: bool, reason: Reason, target: int,
    lights: seq<Light>, replies: seq<bool>, rs: RoomState, i: nat)
    requires |replies| == |lights| && i < |lights|
    ensures LightsCommands(cfg, shouldBeOn, target, lights[..i + 1])
      == LightsCommands(cfg, shouldBeOn, target, lights[..i]) + StepCommands(cfg, shouldBeOn, target, lights[i])
    ensures LightsActions(cfg, shouldBeOn, reason, target, lights[..i + 1], replies[..i + 1])
      == LightsActions(cfg, shouldBeOn, reason, target, lights[..i], replies[..i])
         + StepActions(cfg, shouldBeOn, reason, target, lights[i], replies[i])
    ensures LightsTrack(cfg, shouldBeOn, target, lights[..i + 1], replies[..i + 1], rs)
      == StepTrack(cfg, shouldBeOn, target, lights[i], replies[i],
           LightsTrack(cfg, shouldBeOn, target, lights[..i], replies[..i], rs))
  {
    assert lights[..i + 1][..i] == lights[..i] && replies[..i + 1][..i] == replies[..i];
  }

  function RoomCommands(cfg: LightAgentConfig, room: Room, state: SimulatorState): seq<Command> {
    LightsCommands(cfg, ShouldLightsBeOn(room, state).0,
      CalculateBrightness(cfg, state.daylightIntensity), room.lights)
  }

  function RoomActions(cfg: LightAgentConfig, room: Room, state: SimulatorState, replies: seq<bool>)
    : seq<Action>
    requires |replies| == |room.lights|
  {
    var verdict := ShouldLightsBeOn(room, state);
    LightsActions(cfg, verdict.0, verdict.1,
      CalculateBrightness(cfg, state.daylightIntensity), room.lights, replies)
  }

  /** The room-state table after one room: its entry created if missing, then updated. */
  function RoomUpdate(
    cfg: LightAgentConfig, m: map<string, RoomState>, room: Room,
    state: SimulatorState, replies: seq<bool>): map<string, RoomState>
    requires |replies| == |room.lights|
  {
    var m1 := EnsureRoom(m, room.id);
    m1[room.id := LightsTrack(cfg, ShouldLightsBeOn(room, state).0,
      CalculateBrightness(cfg, state.daylightIntensity), room.lights, replies, m1[room.id])]
  }

  // ---------------------------------------------------------------------------
  // A whole snapshot: the walk over its rooms, defined on prefixes

  /** One answer per light of every room. */
  predicate Answers(rooms: seq<Room>, replies: seq<seq<bool>>) {
    |replies| == |rooms| && forall i :: 0 <= i < |rooms| ==> |replies[i]| == |rooms[i].lights|
  }

  lemma AnswersPrefix(rooms: seq<Room>, replies: seq<seq<bool>>, k: nat)
    requires Answers(rooms, replies) && k <= |rooms|
    ensures Answers(rooms[..k], replies[..k])
  {
    forall i | 0 <= i < k
      ensures |replies[..k][i]| == |rooms[..k][i].lights|
    {
      assert replies[..k][i] == replies[i] && rooms[..k][i] == rooms[i];
    }
  }

  function StateCommands(cfg: LightAgentConfig, state: SimulatorState, rooms: seq<Room>): seq<Command> {
    if rooms == [] then []
    else
      var n := |rooms| - 1;
      StateCommands(cfg, state, rooms[..n]) + RoomCommands(cfg, rooms[n], state)
  }

  function StateActions(
    cfg: LightAgentConfig, state: SimulatorState, rooms: seq<Room>, replies: seq<seq<bool>>)
    : seq<Action>
    requires Answers(rooms, replies)
  {
    if rooms == [] then []
    else
      var n := |rooms| - 1;
      AnswersPrefix(rooms, replies, n);
      StateActions(cfg, state, rooms[..n], replies[..n]) + RoomActions(cfg, rooms[n], state, replies[n])
  }

  function StatesAfter(
    cfg: LightAgentConfig, m: map<string, RoomState>, state: SimulatorState,
    rooms: seq<Room>, replies: seq<seq<bool>>): map<string, RoomState>
    requires Answers(rooms, replies)
    decreases rooms
  {
    if rooms == [] then m
    else
      var n := |rooms| - 1;
      AnswersPrefix(rooms, replies, n);
      RoomUpdate(cfg, StatesAfter(cfg, m, state, rooms[..n], replies[..n]), rooms[n], state, replies[n])
  }

  /** The table after lazily inserting an entry for each room, and nothing more. */
  function EnsureRooms(m: map<string, RoomState>, rooms: seq<Room>): map<string, RoomState>
    decreases rooms
  {
    if rooms == [] then m
    else
      var n := |rooms| - 1;
      EnsureRoom(EnsureRooms(m, rooms[..n]), rooms[n].id)
  }

  function RoomIds(rooms: seq<Room>): set<string> {
    set r | r in rooms :: r.id
  }

  // ---------------------------------------------------------------------------
  // The agent object

  class LightAgent {
    const config: LightAgentConfig
    var roomStates: map<string, RoomState>
    var running: bool
    var lastState: Option<SimulatorState>

    /** Built with the given configuration, or the default one when none is given. */
    constructor (config: Option<LightAgentConfig>)
      ensures this.config == config.GetOr(DefaultConfig)
      ensures roomStates == map[] && !running && lastState == None
    {
      this.config := config.GetOr(DefaultConfig);
      roomStates := map[];
      running := false;
      lastState := None;
    }

    /** The room's record, created with the defaults the first time the id is seen. */
    method GetRoomState(roomId: string) returns (rs: RoomState)
      modifies this`roomStates
      ensures roomStates == EnsureRoom(old(roomStates), roomId)
      ensures rs == roomStates[roomId]
      ensures roomId in old(roomStates) ==> rs == old(roomStates)[roomId]
    {
      if roomId !in roomStates {
        roomStates := roomStates[roomId := NewRoomState(roomId)];
      }
      rs := roomStates[roomId];
    }

    /** One pass of the light loop: the request for `light` and, when the client confirms it
        (`reply`), its log entry and its effect on the room's record. */
    method HandleLight(
      light: Light, reply: bool, shouldBeOn: bool, reason: Reason, targetBrightness: int, roomState: RoomState)
      returns (sent: seq<Command>, actions: seq<Action>, updated: RoomState)
      ensures sent == StepCommands(config, shouldBeOn, targetBrightness, light)
      ensures actions == StepActions(config, shouldBeOn, reason, targetBrightness, light, reply)
      ensures updated == StepTrack(config, shouldBeOn, targetBrightness, light, reply, roomState)
    {
      sent, actions, updated := [], [], roomState;
      var currentOn := light.state == ON;
      if shouldBeOn && !currentOn {
        sent := [TurnOn(light.id, targetBrightness)];
        if reply {
          actions := [SwitchedOn(light.id, reason, targetBrightness)];
          updated := roomState.(lightsOn := true, currentBrightness := targetBrightness);
        }
      } else if !shouldBeOn && currentOn {
        sent := [TurnOff(light.id)];
        if reply {
          actions := [SwitchedOff(light.id, reason)];
          updated := roomState.(lightsOn := false);
        }
      } else if shouldBeOn && currentOn {
        if config.autoBrightness && light.brightness != targetBrightness {
          sent := [TurnOn(light.id, targetBrightness)];
          if reply {
            actions := [BrightnessChanged(light.id, light.brightness, targetBrightness)];
            updated := roomState.(currentBrightness := targetBrightness);
          }
        }
      }
    }

    /** Walks the room's lights in order; `replies[i]` is the client's answer for `room.lights[i]`.
        Returns the action log and the requests sent. */
    method ProcessRoom(room: Room, state: SimulatorState, replies: seq<bool>)
      returns (actions: seq<Action>, sent: seq<Command>)
      requires |replies| == |room.lights|
      modifies this`roomStates
      ensures actions == RoomActions(config, room, state, replies)
      ensures sent == RoomCommands(config, room, state)
      ensures roomStates == RoomUpdate(config, old(roomStates), room, state, replies)
    {
      actions, sent := [], [];
      var roomState := GetRoomState(room.id);
      ghost var rs1 := roomState;
      var (shouldBeOn, reason) := ShouldLightsBeOn(room, state);
      var targetBrightness := CalculateBrightness(config, state.daylightIntensity);
      var lights := room.lights;
      for i := 0 to |lights|
        invariant roomStates == EnsureRoom(old(roomStates), room.id)
        invariant actions == LightsActions(config, shouldBeOn, reason, targetBrightness, lights[..i], replies[..i])
        invariant sent == LightsCommands(config, shouldBeOn, targetBrightness, lights[..i])
        invariant roomState == LightsTrack(config, shouldBeOn, targetBrightness, lights[..i], replies[..i], rs1)
      {
        LightsWalkStep(config, shouldBeOn, reason, targetBrightness, lights, replies, rs1, i);
        var lightSent, lightActions, updated :=
          HandleLight(lights[i], replies[i], shouldBeOn, reason, targetBrightness, roomState);
        sent := sent + lightSent;
        actions := actions + lightActions;
        roomState := updated;
      }
      assert lights[..|lights|] == lights && replies[..|lights|] == replies;
      roomStates := roomStates[room.id := roomState];
    }

    /** Processes every room in order, concatenating their logs and requests,
        then remembers the snapshot. */
    method ProcessState(state: SimulatorState, replies: seq<seq<bool>>)
      returns (actions: seq<Action>, sent: seq<Command>)
      requires Answers(state.rooms, replies)
      modifies this`roomStates, this`lastState
      ensures actions == StateActions(config, state, state.rooms, replies)
      ensures sent == StateCommands(config, state, state.rooms)
      ensures roomStates == StatesAfter(config, old(roomStates), state, state.rooms, replies)
      ensures lastState == Some(state)
    {
      actions, sent := [], [];
      var rooms := state.rooms;
      for k := 0 to |rooms|
        invariant Answers(rooms[..k], replies[..k])
        invariant actions == StateActions(config, state, rooms[..k], replies[..k])
        invariant sent == StateCommands(config, state, rooms[..k])
        invariant roomStates == StatesAfter(config, old(roomStates), state, rooms[..k], replies[..k])
      {
        assert rooms[..k + 1][..k] == rooms[..k] && replies[..k + 1][..k] == replies[..k];
        AnswersPrefix(rooms, replies, k + 1);
        var roomActions, roomSent := ProcessRoom(rooms[k], state, replies[k]);
        actions := actions + roomActions;
        sent := sent + roomSent;
      }
      assert rooms[..|rooms|] == rooms && replies[..|rooms|] == replies;
      lastState := Some(state);
    }

    /** Asks the polling loop to finish; nothing else changes. */
    method Stop()
      modifies this`running
      ensures !running
    {
      running := false;
    }
  }
}
