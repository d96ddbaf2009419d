/** The light-control endpoint, seen only through the requests sent to it.
    Whether a request succeeds is an input to the agents (an oracle). */
module Gateway {
  import opened Basics
  import opened Models

  /** One control request: the light, the state asked for, and the brightness if one is sent. */
  datatype Command = SetLight(lightId: string, state: LightState, brightness: Option<int>)

  /** `turn_on_light`: switch on at a given brightness. */
  function TurnOn(lightId: string, brightness: int): Command
  {
    SetLight(lightId, ON, Some(brightness))
  }

  /** `turn_off_light`: switch off, no brightness in the request. */
  function TurnOff(lightId: string): Command
  {
    SetLight(lightId, OFF, None)
  }

  /** The light as the simulator next reports it once a command to it succeeded:
      the requested state, and the requested brightness when one was sent. */
  function Actuate(l: Light, c: Command): Light
  {
    l.(state := c.state, brightness := c.brightness.GetOr(l.brightness))
  }
}
