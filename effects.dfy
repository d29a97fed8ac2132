/** What the controller asks of its host: service calls, and timers started and
    cancelled. The controller's outbox is a sequence of these, in issue order. */
module Effects {
  import opened Common

  /** An opaque timer handle; the controller hands out a fresh one per `run_in`. */
  type Token = nat

  datatype Command =
    | LightTurnOn(entity: string, brightnessPct: Option<int>, colorTempKelvin: Option<int>)  // light/turn_on
    | LightTurnOff(entity: string)                                                            // light/turn_off
    | SwitchTurnOn(entity: string)                                                            // switch/turn_on
    | SwitchTurnOff(entity: string)                                                           // switch/turn_off
    | AlSetManualControl(alSwitch: string, lights: seq<string>)       // adaptive_lighting/set_manual_control
    | AlReset(alSwitch: string, lights: seq<string>)                  // adaptive_lighting/reset

  /** The callback a timer runs when it fires. */
  datatype Callback =
    | AutoOffElapsed
    | ReautomateFromMotion
    | ReautomateFromManualOff
    | AlResetTimer(entity: string)

  datatype Effect =
    | Call(command: Command)
    | StartTimer(token: Token, callback: Callback, delay: real)   // run_in
    | CancelTimer(token: Token)                                   // cancel_timer
}
