// The event machine of updateChargerStatus on its own: which events a sequence of charger statuses
// puts on the bus.
module Events {
  import opened Base
  import opened Api

  type Samples = seq<(Time, ChargeStatus)>
  type Trace = seq<(Time, BusEvent)>

  function Transition(prev: ChargeStatus, next: ChargeStatus): seq<BusEvent> {
    if prev == next then []
    else
      (if prev.StatusA? then [Connect] else [])
      + (if next.StatusC? then [Start] else if prev.StatusC? then [Stop] else [])
      + (if next.StatusA? then [Disconnect] else [])
  }

  function Stamped(at: Time, events: seq<BusEvent>): (t: Trace)
    ensures |t| == |events| && forall i :: 0 <= i < |t| ==> t[i] == (at, events[i])
  {
    if events == [] then [] else [(at, events[0])] + Stamped(at, events[1..])
  }

  // The status after a sequence of samples; a loadpoint starts out not knowing it.
  function StatusAfter(samples: Samples): ChargeStatus {
    if samples == [] then StatusNone else samples[|samples| - 1].1
  }

  function EventTrace(samples: Samples): Trace {
    if samples == [] then []
    else
      var before := samples[..|samples| - 1];
      var (at, status) := samples[|samples| - 1];
      EventTrace(before) + Stamped(at, Transition(StatusAfter(before), status))
  }
}
