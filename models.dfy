/** The simulator's snapshot types, with the bounds their validation enforces.
    Timestamps are integer seconds; daylight intensity is a real number. */
module Models {
  import opened Basics

  /** State of a light as the simulator reports it: a closed enumeration. */
  datatype LightState = ON | OFF

  /** The JSON spelling of a light state. */
  function LightStateName(s: LightState): string {
    match s
    case ON => "ON"
    case OFF => "OFF"
  }

  /** Enumeration validation: only the two spellings are accepted. */
  function ParseLightState(text: string): (r: Option<LightState>)
    ensures r.Some? <==> text == "ON" || text == "OFF"
  {
    if text == "ON" then Some(ON)
    else if text == "OFF" then Some(OFF)
    else None
  }

  /** Every state survives a trip through its JSON spelling. */
  lemma LightStateRoundTrip(s: LightState)
    ensures ParseLightState(LightStateName(s)) == Some(s)
  {
  }

  /** A parsed state was written with exactly its own spelling. */
  lemma ParsedStateHasItsName(text: string, s: LightState)
    requires ParseLightState(text) == Some(s)
    ensures text == LightStateName(s)
  {
  }

  datatype Light = Light(id: string, roomId: string, state: LightState, brightness: int)

  /** Field bound on `brightness`: between 0 and 100 inclusive. */
  predicate ValidLight(l: Light) {
    0 <= l.brightness <= 100
  }

  /** A planned meeting; no room carries one yet, so nothing reads it. */
  datatype PlannedMeeting = PlannedMeeting(
    id: string, roomId: string, startTime: int, endTime: int, title: Option<string>)

  /** A room: identifier, display name, lights in order and occupancy.
      It has no meeting list. */
  datatype Room = Room(id: string, name: string, lights: seq<Light>, peopleCount: int)

  predicate ValidRoom(r: Room) {
    forall l :: l in r.lights ==> ValidLight(l)
  }

  datatype SimulatorState = SimulatorState(
    simulationTime: int, rooms: seq<Room>, powerOutage: bool, daylightIntensity: real)

  /** Field bound on `daylightIntensity` (0.0 to 1.0), plus the bounds of every light. */
  predicate ValidState(s: SimulatorState) {
    && 0.0 <= s.daylightIntensity <= 1.0
    && forall r :: r in s.rooms ==> ValidRoom(r)
  }

  /** Validation of one light record: rejected unless its brightness is in range. */
  function MakeLight(id: string, roomId: string, state: LightState, brightness: int): (r: Option<Light>)
    ensures r.Some? <==> 0 <= brightness <= 100
    ensures r.Some? ==> ValidLight(r.value) && r.value.id == id && r.value.roomId == roomId
    ensures r.Some? ==> r.value.state == state && r.value.brightness == brightness
  {
    if 0 <= brightness <= 100 then Some(Light(id, roomId, state, brightness)) else None
  }

  /** Validation of one room record: absent `lights` and `peopleCount` take their defaults. */
  function MakeRoom(id: string, name: string, lights: Option<seq<Light>>, peopleCount: Option<int>): (r: Room)
    ensures r.id == id && r.name == name
    ensures lights.Some? ==> r.lights == lights.value
    ensures peopleCount.Some? ==> r.peopleCount == peopleCount.value
    ensures lights.None? ==> r.lights == []
    ensures peopleCount.None? ==> r.peopleCount == 0
  {
    Room(id, name, lights.GetOr([]), peopleCount.GetOr(0))
  }

  /** A room sent without `lights` and `peopleCount` is empty and unoccupied. */
  lemma RoomDefaults(id: string, name: string)
    ensures MakeRoom(id, name, None, None) == Room(id, name, [], 0)
  {
  }

  /** Validation of a snapshot: rejected unless its daylight intensity is in range. */
  function MakeState(simulationTime: int, rooms: seq<Room>, powerOutage: bool, daylight: real)
    : (r: Option<SimulatorState>)
    ensures r.Some? <==> 0.0 <= daylight <= 1.0
    ensures r.Some? ==> r.value.rooms == rooms && r.value.powerOutage == powerOutage
    ensures r.Some? ==> r.value.simulationTime == simulationTime && r.value.daylightIntensity == daylight
    ensures r.Some? && (forall room :: room in rooms ==> ValidRoom(room)) ==> ValidState(r.value)
  {
    if 0.0 <= daylight <= 1.0 then Some(SimulatorState(simulationTime, rooms, powerOutage, daylight))
    else None
  }
}
