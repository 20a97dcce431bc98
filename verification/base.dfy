// Shared vocabulary: options, the clock, charging states and modes.
module Base {

  datatype Option<+T> = None | Some(value: T)

  // time.Time and time.Duration: whole nanoseconds.
  type Time = int

  const SECOND: Time := 1_000_000_000
  const HOUR: Time := 3600 * SECOND

  // How long after connecting a vehicle is sought by status
  const DETECT_DURATION: Time := 600 * SECOND

  // Go's math.Trunc
  function Trunc(x: real): real {
    if x >= 0.0 then x.Floor as real else -((-x).Floor as real)
  }

  // Go's math.Round: halves move away from zero
  function Round(x: real): int {
    if x >= 0.0 then (x + 0.5).Floor else -((-x + 0.5).Floor)
  }

  // time.Duration.Truncate(time.Second): towards zero
  function TruncateToSecond(d: Time): Time {
    if d >= 0 then d - d % SECOND else d + (-d) % SECOND
  }

  function Min(a: real, b: real): real { if a <= b then a else b }

  function Max(a: real, b: real): real { if a >= b then a else b }
}

// api/api.go and core/loadpoint: the enumerations of the control interface.
module Api {

  // The control-pilot states of IEC 61851-1, Annex A, and "not yet read".
  datatype ChargeStatus = StatusNone | StatusA | StatusB | StatusC | StatusD | StatusE | StatusF

  datatype ChargeMode = ModeEmpty | ModeOff | ModeNow | ModeMinPV | ModePV

  datatype RemoteDemand = RemoteEnable | RemoteHardDisable | RemoteSoftDisable

  // `stateful`: the vehicle implements api.ChargeState
  datatype Vehicle = Vehicle(id: nat, stateful: bool)

  // What the loadpoint publishes on its event bus when the charger status changes.
  datatype BusEvent = Connect | Start | Stop | Disconnect
}
