# The control core of evcc, modelled and verified

evcc charges an electric vehicle from surplus solar power. Once per interval a *site* reads its meters
and tells a *loadpoint* how much power the site takes from or gives to the grid; the loadpoint reads its
charger, decides on a current and on one or three phases, and commands the charger. Users and remote
controllers change settings in between. This project models that core in Dafny and proves what it
guarantees on every run, whatever the charger, the meters and the vehicles answer and whenever they fail.

## How it is built

| file | what it holds |
|---|---|
| `base.dfy` | options, the clock, statuses and modes |
| `history.dfy` | the history of a loadpoint (every command and every decision) and the laws it obeys, stated without any of the loadpoint's variables |
| `control.dfy` | each method of the loadpoint as a function on its state, which carries the history |
| `events.dfy` | which bus events a sequence of charger statuses gives rise to |
| `runs.dfy` | runs: start-up, then any updates and API calls at any times; the invariant and that every method keeps it |
| `safety.dfy` | what follows for every run |
| `outcome.dfy` | what an update achieves when the charger cooperates |
| `sync.dfy` | what it costs not to know the charger's state, and to repeat commands to it |
| `identify.dfy` | which vehicle a loadpoint takes to be connected |
| `effects.dfy` | what the operations of a loadpoint amount to, in terms of its variables, the inputs and the constants alone |
| `phases.dfy` | the hysteresis of the phase switch |
| `loadpoint.dfy` | the loadpoint as a class whose methods change its fields step by step, proved to refine `control.dfy` and to keep the invariant and the charge timer in step |
| `progress.dfy`, `rater.dfy` | charge timer, charge rater and replacement charge meter, and what the loadpoint's events make of them |
| `energy.dfy` | the charge rater of a run of the loadpoint |
| `balance.dfy` | the site's meters and the closed control loop |
| `coordinator.dfy` | which loadpoint holds which vehicle |
| `fleets.dfy` | runs of several loadpoints on one coordinator |
| `estimator.dfy` | the adaptive estimate of the state of charge |
| `tasklist.dfy`, `work.dfy` | the detection engine: dependent tasks and the worker pool |
| `limiter.dfy` | the stream filters |
| `tplink.dfy` | the TP-Link autokey cipher |

The history is what makes the timers checkable. The loadpoint keeps three timers and cached copies of
charger state; the history functions `GuardSince`, `PvSince`, `Wanted`, `AckedState`, `AckedLimit` and
`AckedPhases` say from the events alone what each should be, and `Law` says which event may follow which
history. The run invariant ties the variables to those functions and demands that the history is lawful.
The main results in `safety.dfy` then speak of every event in every run.

Amounts of power, current and energy are reals; times are whole nanoseconds. A method that may fail takes
the charger's answer as an argument, so a statement about all arguments is one about all failures.

## Where the code is not what one would expect

- A minimum current that is not whole amperes, with a charger that takes whole amperes only, makes
  `setLimit` send a limit below the minimum and then switch off (`core/loadpoint.go:492-514`).
  `Safety.RangeNeedsWholeMinimum` gives the exact condition and `Safety.FractionalMinimumSwitchesOff` a case.
- A minimum current that is not positive would make even a forced `setLimit(0)` leave the charger on:
  `Safety.OffNeedsPositiveMinimum`. The results on runs therefore suppose a positive minimum.
- `syncCharger` ignores a charger that refuses to be switched off, and a charger that cannot be read at
  start-up is taken to be off. `scalePhases` then switches the phases of a charger that may be on:
  `OutOfSync.RefusedThenSwitched`, `OutOfSync.NeverReadThenSwitched` and `OutOfSync.NeverReadThenSet`, and
  `OutOfSync.SwitchesUnsureExactly` for when.
- `syncCharger` does not begin the guard, so the contactor may change twice at one instant:
  `OutOfSync.SwitchedTwiceAtOnce`, and `OutOfSync.SwitchedBackExactly` for when.
- The PV timer is not cleared when it has enabled the charger, so a deficit can switch off again without
  waiting for `Disable.Delay`: `Outcomes.DisableWithoutDelay`, and `Outcomes.DisableAtOnceExactly` for when.
- Elapsing the timer dates it back by `Disable.Delay` only, so that connecting or a phase switch lets PV mode
  enable at once only if `Enable.Delay` is no longer than that: `Outcomes.EnableAtOnceExactly`.
- Without a grid meter the site goes by the charge power before the last change, and the control loop
  overshoots: `Balance.GuessedLoopOvershoots`.
- The charger's vehicle identity is remembered when the vehicle leaves, so the same vehicle is not identified
  when it returns: `Identification.ReconnectedIsForgotten`, unless the charger tells an empty identity in
  between: `Identification.EmptyIdentityReminds`.
- A phase switch by PV control is to keep the charger off for the cycle; climate control and the cheap tariff
  switch it on at once: `Outcomes.SwitchCycleExactly`.
- With estimation off the estimator recovers from no temporary error of the SoC, since it stores no SoC:
  `Estimation.TemporaryErrorExactly`.
- With several vehicles the target SoC of the disconnect action is never set, because the vehicle is let go
  before the action runs: `Effects.UnpluggingActs`.
- Tasks that share an id may make the detection recur without end: `TaskLists.SharedIds`, and
  `TaskLists.RecursionBoundedExactly` for when.
- Switching up to three phases waits for `Disable.Delay`, while its log line names `Enable.Delay`
  (`core/loadpoint.go:915-923`); the model follows the code.
- With the replacement charge meter the loadpoint never comes to believe in more active phases than
  before, so after falling to one phase it never asks to switch down again: `Safety.OnePhaseForGood`.
- The charge timer and the charge rater start when a vehicle connects, not when it first charges:
  `Safety.RunChargingTime` and `RunEnergy.RunMeteredEnergy` say exactly when they are right.
- Identification by the charger bypasses the availability check: `Coordination.DirectMovesShare`, and
  `Coordination.NobodySharesExactly` and `Fleets.ApartInRuns` for what that costs.
- The unique id of a loadpoint's parameter can be spelled by a key that contains a dot: `Pipes.SameIDExactly`.

## Model

| member | source | states |
|---|---|---|
| Safety.RunInvariant | core/loadpoint.go:1201-1331 | the run invariant holds after start-up and any updates and API calls, under any failures |
| Safety.EveryEventLawful | core/loadpoint.go:486-1040 | every command and decision of every run obeyed its law when it happened |
| Safety.LimitsInRange | core/loadpoint.go:486-540 | every current limit ever sent lies within the limits configured at that moment |
| Safety.EnablesAreGuarded | core/loadpoint.go:506-536 | every enable command of setLimit is a change of the acknowledged state, or an enable where none was acknowledged yet; an enable follows an acknowledged limit in range; an unforced one comes more than the guard time less a second after the guard began, so after the previous change that setLimit made or found at start-up, unless the timer was elapsed since; commands that syncCharger repeats are not bound |
| Safety.PhasesSwitchWhileOff | core/loadpoint.go:828-865 | phases are never switched while the charger is acknowledged on; the charger is acknowledged off with no disable pending, except if and only if it never reported or acknowledged anything or syncCharger repeated a disable that it refused; the switch is a change to 1 or 3 |
| OutOfSync.SwitchesUnsureExactly | core/loadpoint.go:828-865 | scalePhases switches the phases without the charger being acknowledged off, or with a disable pending, if and only if the loadpoint takes it to be off and it never reported or acknowledged anything or the last command was a repeated switch-off that it refused |
| OutOfSync.NeverReadThenSwitched | core/loadpoint.go:451-483 | a run that switches the phases of a charger whose state could be read neither at start-up nor after |
| OutOfSync.NeverReadThenSet | core/loadpoint_api.go:110-113 | the same by an API call straight after start-up |
| OutOfSync.RefusedThenSwitched | core/loadpoint.go:467-483 | a run that switches the phases of a charger that has just reported to be on and refused to be switched off |
| OutOfSync.SwitchedBackExactly | core/loadpoint.go:467-510 | after syncCharger has switched the charger, an unforced setLimit switches it back at the same instant if and only if the guard did not hold before |
| OutOfSync.SwitchedTwiceAtOnce | core/loadpoint.go:467-510 | a run that switches the charger on and off at one instant, unforced and with the guard never lifted |
| Safety.EventsAlternate | core/loadpoint.go:755-794 | start and stop alternate, disconnect and connect alternate, nothing starts or stops between a disconnect and the next connect |
| Safety.PhaseWishesAreSteady | core/loadpoint.go:868-945 | a running phase timer never changes direction; a switch falls due exactly when the same wish has stood for Disable.Delay |
| Safety.PhaseSwitchesAreEarned | core/loadpoint.go:868-945 | PV control sends a phase switch only at the instant of a weighing that found it due, in its direction, and no sooner than Disable.Delay after the last switch of any origin |
| Safety.PvChangesAreEarned | core/loadpoint.go:975-1034 | PV mode disables only with the target below the minimum and the site power at the disable threshold or above, enables only with the target at the minimum or the site power at the enable threshold or below, and neither before the delay has passed since the last evaluation that spoke against it, unless the timer was elapsed since |
| Safety.PvCurrentsExactly | core/loadpoint.go:970-1040 | over every run, which current PV control asks for: in Min+PV mode the target within the limits, in PV mode while enabled and not in deficit the target up to the maximum, else the minimum or none |
| Safety.WantedMeans | core/loadpoint.go:975-1034 | which evaluations speak for and against a change, in terms of target, site power and thresholds |
| Safety.CachesAreTrue | core/loadpoint.go:486-865 | the cached enabled state, phases and current are what the charger last acknowledged, and off, the configured phases and no current until it has; the status is what was last announced, and all three timers what the history tells |
| Safety.MeterMatchesControl | core/loadpoint.go:382-392 | after any run the replacement meter shows current times active phases times voltage if the charger is acknowledged on and charging has started and not stopped, else 0; reading it back never changes the active phases |
| Safety.ReadingIsStable | core/loadpoint.go:1043-1079 | guessing phases from the replacement meter's power finds the phases it was told |
| Safety.OnePhaseForGood | core/loadpoint.go:886-905 | with the replacement meter, one active phase stays one on every run and no power asks to switch down |
| Safety.BusCarriesTransitions | core/loadpoint.go:755-794 | over any run the bus carries the events of the statuses read, no more and no less |
| Safety.TimeInCExactly | core/wrapper/chargetimer.go:29-59 | driven by the events, the charging time is the time in status C since the last connect, exactly when charging has started or stopped since then or no time has passed |
| Safety.RunChargingTime | core/loadpoint.go:275-280 | the same for the charge timer of any run of the loadpoint, at any later time |
| Safety.RangeNeedsWholeMinimum | core/loadpoint.go:489-495 | every admissible current is sent within the limits if and only if the minimum is whole or the charger takes milliamperes |
| Safety.StaysOnExactly | core/loadpoint.go:486-520 | a forced, acknowledged limit leaves the charger on exactly if it is the current one or still reaches the minimum as sent |
| Safety.FractionalMinimumSwitchesOff | core/loadpoint.go:486-520 | with a minimum of 6.5 A and whole amperes, asking for the minimum sends 6 A and switches off |
| Safety.OffNeedsPositiveMinimum | core/loadpoint.go:486-520 | a forced, acknowledged setLimit(0) leaves the charger on if and only if the minimum is not positive |
| Safety.ContradictionHoldsTimer | core/loadpoint.go:975-1034 | in a lawful history the PV timer never dates from before the last contradiction |
| Safety.SwitchRestartsWish | core/loadpoint.go:855-856 | in a lawful history a wish for other phases never dates from before the last switch |
| Runs.SetLimitKeeps | core/loadpoint.go:486-540 | setLimit keeps the invariant for every admissible current, forced or not, under any failure |
| Runs.ForcedOff | core/loadpoint.go:843-845 | a forced setLimit(0) without error leaves the loadpoint disabled: one that was enabled has no disable pending, one that was not sends nothing and cannot fail |
| Runs.SetLimitFrame | core/loadpoint.go:486-540 | setLimit touches enabled state, current, guard and replacement meter only |
| Runs.ScalePhasesKeeps | core/loadpoint.go:828-865 | scalePhases keeps the invariant, wherever it fails |
| Runs.PvScalePhasesKeeps | core/loadpoint.go:868-945 | pvScalePhases keeps the invariant and leaves the charger off when it switches |
| Runs.PvMaxCurrentKeeps | core/loadpoint.go:948-1040 | pvMaxCurrent keeps the invariant and returns 0 or a current within the limits |
| Runs.GuessIsStable | core/loadpoint.go:1063-1079 | the phases guessed from the replacement meter are the active phases if enabled, else 0 |
| Runs.UpdateChargerStatusKeeps | core/loadpoint.go:755-794 | a status change keeps the invariant and puts exactly its events on the bus |
| Runs.StrategyKeeps | core/loadpoint.go:1254-1321 | every branch of the charging strategy keeps the invariant |
| Runs.UpdateKeeps | core/loadpoint.go:1201-1331 | Update keeps the invariant and announces the status it read |
| Runs.PrepareEstablishes | core/loadpoint.go:410-464 | start-up establishes the invariant, also if its setLimit fails |
| Runs.ApplyKeeps | core/loadpoint_api.go:28-198 | every API call keeps the invariant |
| Runs.RunKeeps | core/loadpoint.go:1201-1331 | every run keeps the invariant and, with the replacement meter, never adds active phases |
| Outcomes.Precedence | core/loadpoint.go:1254-1321 | plugged in, with a cooperating charger: a vehicle SoC at or above a target between 1 and 99 decides alone, charging at the minimum exactly for an active climate control even against a hard disable or mode Off; then hard disable and mode Off; then a vehicle SoC below the minimum SoC, which also lets PV mode disable at once afterwards, and mode Now; then soft disable and cheap tariff in the PV modes |
| Outcomes.DisconnectedIsOff | core/loadpoint.go:1255-1258 | without a vehicle the charger is on after an update if and only if it was on and the guard still holds |
| Outcomes.PvFollowed | core/loadpoint.go:1296-1321 | otherwise PV control decides: off becomes full power for an active climate control; else the guard may hold back the switch but not the current |
| Outcomes.SwitchCycleExactly | core/loadpoint.go:961-965 | in the cycle of a PV phase switch the charger ends on if and only if there is no soft disable and the tariff is cheap or a climate control active |
| Outcomes.ForcedLimit | core/loadpoint.go:486-540 | a forced, acknowledged limit switches on or off as asked and sets the current to within one ampere, exactly with milliamperes |
| Outcomes.FullPower | core/loadpoint.go:1282-1289 | minimum SoC and mode Now end at full power, on three phases if the charger can switch |
| Outcomes.PvIsAdmissible | core/loadpoint.go:948-1040 | PV control returns 0 or a current within the limits from any state |
| Outcomes.GuardDecides | core/loadpoint.go:506-510 | an unforced change goes through if and only if more than the guard time less a second has passed |
| Outcomes.ElapsedLiftsGuard | core/loadpoint.go:812-815 | elapsing the timer lifts the guard and lets PV mode disable at once |
| Outcomes.EnableAtOnceExactly | core/loadpoint.go:812-815 | after elapsing the timer, power for charging switches the charger on at once if and only if Enable.Delay is no longer than Disable.Delay |
| Outcomes.DisableWithoutDelay | core/loadpoint.go:975-1034 | runs from start-up in which PV mode switches the charger on and the first deficit after that switches it off again, sooner than Disable.Delay, for any guard no longer than that time |
| Outcomes.DisableAtOnceExactly | core/loadpoint.go:975-1001 | in PV mode the first deficit switches the charger off if and only if the timer had already run for Disable.Delay and the guard is over |
| Effects.TargetExactly | core/loadpoint.go:797-809 | the target moves the effective current by what the site power amounts to on the active phases; effective is at most two amperes above the first phase current, or the limit while charging, or none |
| Effects.MinPvExactly | core/loadpoint.go:948-1040 | with no phase switch due a Min+PV update charges at the target within the limits, at the minimum below it |
| Effects.PvFollowsTarget | core/loadpoint.go:948-1040 | in PV mode an enabled charger follows the target while it reaches the minimum, and the timer is cleared |
| Effects.ScaleExactly | core/loadpoint.go:828-865 | every answer of scalePhases and when it is given; after a switch the charger is off and PV mode may act at once, after a failure phases and timer are as before |
| Effects.FullPowerExactly | core/loadpoint.go:1278-1289 | when full power is reached, and what a failing phase switch leaves |
| Effects.ChargePowerExactly | core/loadpoint.go:1043-1060 | the charge power is the meter's, or what it was if reading fails |
| Effects.ActivePhasesExactly | core/loadpoint.go:1063-1105 | while charging the active phases are those measured with at least an ampere, if any |
| Effects.GuessExactly | core/loadpoint.go:1066-1079 | without phase currents they are the whole number nearest to the power over voltage and current, if from 1 to 3 |
| Effects.ModeExactly | core/loadpoint_api.go:28-44 | a change of mode lets PV mode act at once, the same mode changes nothing |
| Effects.SoCLimitsTakeEffect | core/loadpoint_api.go:54-100 | a minimum SoC above what an active vehicle has makes it charge at full power, a target at or below stops it, and without a vehicle both do nothing |
| Effects.UnpluggingActs | core/loadpoint.go:348-367 | unplugging runs the disconnect action; with several vehicles its target SoC is never set |
| Effects.IdentityActs | core/loadpoint.go:629-650 | a new identity runs its action, whether or not a vehicle has it |
| Effects.PluggingInElapses | core/loadpoint.go:315-345 | plugging in lifts the guard, lets PV mode act at once and begins the search for the vehicle |
| Effects.SearchExactly | core/loadpoint.go:720-752 | a pick counts for less than ten minutes after plugging in, with several vehicles |
| Effects.PollExactly | core/loadpoint.go:1150-1165 | a poll takes over the SoC of the active vehicle, cut to whole percents |
| Effects.OldModeGoverns | core/loadpoint.go:1201-1270 | the mode at the beginning of an update governs it: in mode Off a connected charger ends off, unless the target SoC is reached and it is climatised |
| Effects.StartExactly | core/loadpoint.go:410-464 | start-up assumes the configured phases active, takes over the enabled state, and sends a charger that is on the minimum current |
| Hysteresis.AtMostOneSwitch | core/loadpoint.go:868-945 | under constant power and minimum current any calls at any times, with any phases detected in between, switch at most once, and not at all if the setting suits the power |
| Hysteresis.WishesExactly | core/loadpoint.go:886-915 | up is wished if and only if one phase is configured and the power suffices for the minimum on three; down if and only if three are configured, more than one is active and it does not suffice on those |
| Hysteresis.SwitchExactly | core/loadpoint.go:868-945 | a cooperating charger is switched if and only if the power asks for it and has been waited on for Disable.Delay; then the other number of phases is configured and the charger off |
| Hysteresis.LongEnoughSwitchesOnce | core/loadpoint.go:868-945 | constant power that asks for a switch at every call gets exactly one from a cooperating charger if the calls go on for Disable.Delay after the first |
| LoadPoints.LoadPoint.PublishCurrent | core/loadpoint.go:382-392 | the handler sets the replacement meter as its specification says |
| LoadPoints.LoadPoint.ElapsePVTimer | core/loadpoint.go:812-815 | refines its specification |
| LoadPoints.LoadPoint.SendLimit | core/loadpoint.go:488-504 | first half of setLimit refines its specification |
| LoadPoints.LoadPoint.SendEnable | core/loadpoint.go:506-536 | second half of setLimit refines its specification |
| LoadPoints.LoadPoint.SetLimit | core/loadpoint.go:486-540 | refines the specification that Runs, Safety and Outcomes speak of |
| LoadPoints.LoadPoint.ScalePhases | core/loadpoint.go:828-865 | refines its specification: invalid, not available, unchanged, failed and switched |
| LoadPoints.LoadPoint.PvScalePhases | core/loadpoint.go:868-945 | the two timer sequences refine the weighing and switching of the specification |
| LoadPoints.LoadPoint.PvDecide | core/loadpoint.go:973-1040 | the PV timer part of pvMaxCurrent refines its specification |
| LoadPoints.LoadPoint.PvMaxCurrent | core/loadpoint.go:948-1040 | refines its specification |
| LoadPoints.LoadPoint.UpdateChargePower | core/loadpoint.go:1043-1060 | refines its specification; a failing meter changes nothing |
| LoadPoints.LoadPoint.UpdateChargeCurrents | core/loadpoint.go:1063-1105 | counts or guesses the active phases as its specification says |
| LoadPoints.LoadPoint.ApplyAction | core/loadpoint.go:395-402 | refines its specification |
| LoadPoints.LoadPoint.UpdateChargerStatus | core/loadpoint.go:755-794 | refines its specification and drives the charge timer by the events |
| LoadPoints.LoadPoint.UpdateVehicle | core/loadpoint.go:1227-1249 | identification while connected, then the SoC truncated if it is polled, refine their specification |
| LoadPoints.LoadPoint.IdentifyByCharger | core/loadpoint.go:616-650 | a new identity selects a vehicle and runs its action, refining the specification |
| LoadPoints.LoadPoint.IdentifyByStatus | core/loadpoint.go:720-752 | during the search the pick is taken, and a vehicle that was not confirmed given up, refining the specification |
| Identification.ConnectedVehicleExactly | core/loadpoint.go:616-752 | with several vehicles, which vehicle an update takes on seeing a connection: the pick by status, else the one the charger identifies if and only if that identity is not the one told last and the vehicle cannot tell its status |
| Identification.ReconnectedIsForgotten | core/loadpoint.go:629-634 | with several vehicles, one that was unplugged stays forgotten over any run in which the coordinator picks none and the charger tells no other identity, however often it is plugged in; the next update has a vehicle if and only if it finds one |
| Identification.FoundExactly | core/loadpoint.go:616-752 | without a vehicle an update ends with one if and only if, connected, the coordinator picks one during the search or the charger tells another identity of a known vehicle that need not be confirmed |
| Identification.StaysForgotten | core/loadpoint.go:616-752 | no vehicle appears over any run while there is no pick and no other identity |
| Identification.EmptyIdentityReminds | core/loadpoint.go:629-641 | an empty identity in between makes the same identity find its vehicle again |
| Identification.VehicleSettles | core/loadpoint.go:720-752 | once the search is over and the charger tells nothing new, an update at the same plug keeps the vehicle |
| LoadPoints.LoadPoint.SyncCharger | core/loadpoint.go:467-483 | repeats the expected enabled state if the charger differs |
| LoadPoints.LoadPoint.Strategy | core/loadpoint.go:1254-1321 | the branches in their order refine the specification |
| LoadPoints.LoadPoint.Update | core/loadpoint.go:1201-1331 | refines the specification, keeps the run invariant and keeps the charge timer equal to what the events on the bus make of it |
| LoadPoints.LoadPoint.Prepare | core/loadpoint.go:410-464 | start-up refines its specification |
| LoadPoints.LoadPoint.PreparedIsValid | core/loadpoint.go:410-464 | a new loadpoint with a new timer is valid once prepared |
| LoadPoints.LoadPoint.SetMode | core/loadpoint_api.go:28-44 | a change of mode elapses the timers; validity is kept |
| LoadPoints.LoadPoint.SetTargetSoC | core/loadpoint_api.go:54-72 | takes effect with a vehicle only; validity is kept |
| LoadPoints.LoadPoint.SetMinSoC | core/loadpoint_api.go:82-100 | takes effect with a vehicle only; validity is kept |
| LoadPoints.LoadPoint.SetPhases | core/loadpoint_api.go:110-113 | switches as scalePhases does; validity is kept |
| LoadPoints.LoadPoint.RemoteControl | core/loadpoint_api.go:134-149 | changes the demand only; validity is kept |
| LoadPoints.LoadPoint.SetMinCurrent | core/loadpoint_api.go:172-180 | changes the limit only, to any value; validity is kept for a positive one |
| LoadPoints.LoadPoint.SetMaxCurrent | core/loadpoint_api.go:190-198 | changes the limit only; validity is kept |
| Progress.ValueIsInStatusC | core/wrapper/chargetimer.go:29-59 | on every status sequence the accumulated value is the increment over status C since the last connect plus what ran up since connecting if charging has not started |
| Progress.ValueIsRightExactly | core/wrapper/chargetimer.go:29-59 | so it is right if and only if charging has started or stopped since the last connect or nothing ran up |
| Progress.AfterTransition | core/loadpoint.go:755-794 | what the events of one status change make of timer and rater, in their order |
| Progress.DrivenBySample | core/loadpoint.go:275-280 | driving the timer update by update is driving it by the whole trace |
| Wrapper.ChargedEnergyExactly | core/wrapper/chargerater.go:38-122 | with a reliable energy meter the charged energy is the meter's increment over status C since the last connect, exactly when charging has started since then or the meter has not moved |
| Wrapper.UnmeteredIsIntegral | core/wrapper/chargerater.go:81-97 | without one it is the integral of the reported power over the counting intervals since the last connect, each weighed once |
| Wrapper.IntegralBounded | core/wrapper/chargerater.go:81-97 | with power between 0 and P the charged energy is between 0 and P times the time since the last connect |
| Wrapper.EnergyExactly | core/wrapper/chargerater.go:88-94 | a kilowatt for 3600 seconds is a kilowatt hour |
| Wrapper.MeterErrorsSkip | core/wrapper/chargerater.go:38-122 | what a failing energy meter does to starting, stopping and asking, and that power counts only while charging without one |
| Wrapper.ChargedEnergyBounded | core/wrapper/chargerater.go:81-122 | the same of what the rater tells |
| RunEnergy.RunMeteredEnergy | core/loadpoint.go:261-268 | with a reliable energy meter, the charged energy after any run is the meter's increment over status C since the last connect, exactly when charging has started or stopped since then or the meter has not moved |
| RunEnergy.RaterFollowsRun | core/loadpoint.go:1208-1224 | without one, the rater that hears the events and charge powers a run publishes is the rater of what its updates measured and read |
| RunEnergy.RunUnmeteredEnergy | core/loadpoint.go:1208-1224 | then, with charge powers between 0 and P, the charged energy after any run is between 0 and P times the time since the last connect |
| Wrapper.StopTwiceCountsTwice | core/wrapper/chargetimer.go:42-48 | a second stop counts the last interval again, which the alternation of events rules out |
| Wrapper.ChargeTimer.StartCharge | core/wrapper/chargetimer.go:29-39 | refines the accumulator |
| Wrapper.ChargeTimer.StopCharge | core/wrapper/chargetimer.go:42-48 | refines the accumulator |
| Wrapper.ChargeTimer.ChargingTime | core/wrapper/chargetimer.go:51-59 | returns the accumulator's value |
| Wrapper.ChargeRater.StartCharge | core/wrapper/chargerater.go:38-60 | refines the rater, also if the meter fails |
| Wrapper.ChargeRater.StopCharge | core/wrapper/chargerater.go:63-78 | refines the rater, also if the meter fails |
| Wrapper.ChargeRater.SetChargePower | core/wrapper/chargerater.go:81-97 | refines the rater: power counts only while charging and without an energy meter |
| Wrapper.ChargeRater.ChargedEnergy | core/wrapper/chargerater.go:100-122 | returns the rater's energy, an error if the meter fails while charging |
| Balance.Site.UpdateMeters | core/site.go:232-277 | which readings are taken over; without a grid meter the grid power is what the loadpoints draw less the PV power; it fails exactly if the grid or battery meter does |
| Balance.SumAdds | core/site.go:267-274 | what the loadpoints draw is the sum of their powers, each counted once |
| Balance.Site.ReadSitePower | core/site.go:286-316 | grid plus battery plus residual power, a charging battery below its priority SoC counting nothing, or an error exactly if the grid or battery meter failed |
| Balance.TargetIsIndependent | core/loadpoint.go:954-956 | under exact metering the target current depends on the surroundings only, not on the present current |
| Balance.OneStepBalances | core/loadpoint.go:948-1040 | unclamped, one step brings the site power to exactly 0 and changes nothing but the current and the timers |
| Balance.BalancedIsQuiet | core/loadpoint.go:486-540 | on a balanced site a step sends no command |
| Balance.LoopSettles | core/site.go:286-330 | the closed loop: a site with a grid meter reads its power and updates the charging loadpoint twice under unchanging surroundings; after the first update grid, counted battery and residual power add up to 0 unless clamped, and the second sends no command |
| Balance.GuessedLoopOvershoots | core/site.go:267-274 | without a grid meter the second update overshoots the balancing current by as much as the first current was short of it, and keeps the balance if and only if there was one from the start |
| Balance.UpdateFollows | core/loadpoint.go:1201-1331 | an unclamped update of an exactly metered charging loadpoint sets the current that balances the site and changes nothing but meters and timers |
| Coordination.Coordinator.AvailableVehicles | core/coordinator.go:28-40 | the vehicles that tell their status and are free or the loadpoint's own, in order |
| Coordination.Coordinator.IdentifyVehicleByStatus | core/coordinator.go:43-71 | a vehicle is picked if and only if it is the single available one that is plugged in |
| Coordination.PickExactly | core/coordinator.go:28-71 | that is the only one that tells its status, is free or the loadpoint's own, and is connected or charging |
| Coordination.Seat.SetActiveVehicle | core/loadpoint.go:679-712 | releasing and acquiring on the shared coordinator refine the fleet's step |
| Coordination.TrackingIsTrue | core/coordinator.go:20-26 | in every run a tracked vehicle is active at the loadpoint it is tracked for |
| Coordination.ByStatusNobodyShares | core/loadpoint.go:738-752 | if vehicles are found by status only, every active vehicle is tracked and no two loadpoints share one |
| Coordination.AssignmentExactly | core/loadpoint.go:679-712 | assigning a vehicle keeps tracking complete if and only if nobody else holds it |
| Coordination.SharingExactly | core/loadpoint.go:679-712 | ... and makes no two loadpoints share a vehicle if and only if nobody else holds it |
| Coordination.NobodySharesExactly | core/loadpoint.go:679-752 | over any run no two loadpoints ever share a vehicle if and only if identification by the charger only takes vehicles that nobody else holds |
| Coordination.DirectMovesShare | core/loadpoint.go:634-650 | identification by the charger lets two loadpoints hold one vehicle, and leaves it untracked when the first lets go |
| Fleets.UpdateIsMoves | core/loadpoint.go:679-752 | the vehicle a loadpoint has after an update is where the moves of that update, at most two, bring the coordinator's fleet |
| Fleets.RunIsMoves | core/loadpoint.go:679-752 | any run of any number of loadpoints, with starts, updates and API calls, is a run of moves of their fleet, which agrees with their vehicles throughout |
| Fleets.TrackedInRuns | core/coordinator.go:20-26 | so in any such run a tracked vehicle is active at the loadpoint it is tracked for |
| Fleets.ApartInRuns | core/coordinator.go:20-71 | ... and no two loadpoints ever share a vehicle if and only if chargers' identifications and starts with a single vehicle take only vehicles that nobody else holds |
| Estimation.Estimator.Reset | core/soc/estimator.go:45-51 | the state a reset leaves |
| Estimation.Estimator.SoC | core/soc/estimator.go:95-164 | refines the specification of a poll, with the charger's precedence and every error; keeps the gradient positive and the virtual capacity a hundred steps |
| Estimation.ReadingIsReturned | core/soc/estimator.go:95-164 | after any history, a poll that reads an SoC, the charger's before the vehicle's, returns it as read with estimation off or if it is new; else it returns it plus the energy since in steps, up to 100 % |
| Estimation.ErrorChangesNothing | core/soc/estimator.go:95-138 | a poll that fails changes nothing, and a vehicle that must be asked again always fails it |
| Estimation.GradientKept | core/soc/estimator.go:144-152 | the gradient changes only on a rise of more than two percent by charging since a reading |
| Estimation.NewEstimator | core/soc/estimator.go:45-51 | a new estimator takes a tenth of the energy to be lost |
| Estimation.Estimator.RemainingDuration | core/soc/estimator.go:54-80 | refines its specification, which tells the division by zero apart |
| Estimation.Estimator.RemainingEnergy | core/soc/estimator.go:83-92 | refines its specification |
| Estimation.RunIsConsistent | core/soc/estimator.go:95-164 | over every run of polls and resets the gradient stays positive and the virtual capacity is a hundred steps of it |
| Estimation.EstimateIsLinear | core/soc/estimator.go:141-163 | every estimate is the last reading plus the energy since in steps, unless cut at 100 % |
| Estimation.RemainderReachesTarget | core/soc/estimator.go:83-164 | closure: charging the remaining energy with an unchanged reading brings the estimate to the target and the remainder to 0, if and only if the target is at most 100 % |
| Estimation.ChargingRemainderReachesTarget | core/soc/estimator.go:83-164 | the same from any uncapped state |
| Estimation.GradientExplainsReading | core/soc/estimator.go:144-152 | a learnt gradient explains the reading it was learnt from |
| Estimation.TemporaryErrorExactly | core/soc/estimator.go:98-138 | after any polls and resets, a temporary error is recovered from if and only if estimation is on and the last SoC read since the last reset was not 0, and then with that SoC |
| Estimation.TemporaryErrorIgnored | core/soc/estimator.go:98-163 | so a history with the error goes on as one with that SoC read again, or else as one without the poll |
| Estimation.StoredIsLastRead | core/soc/estimator.go:141-158 | the stored SoC is the last one read since the last reset with estimation on, and 0 with estimation off |
| Estimation.DurationDeliversRemainder | core/soc/estimator.go:54-80 | charging at the given power for the remaining duration delivers the remaining energy to within half a second and a nanosecond |
| Estimation.NoDuration | core/soc/estimator.go:54-60 | without power the duration is unknown, and at the target it is 0 |
| Estimation.FinishTimeIsShared | core/soc/estimator.go:61-72 | with a finish time, a target up to 100 % takes no longer than the time left, and 100 % takes all of it |
| TaskLists.TaskList.Delete | detect/tasklist.go:25-36 | removes one position and keeps the order |
| TaskLists.TaskList.Sort | detect/tasklist.go:38-67 | sound and complete: ends with an ordered permutation, and panics exactly when there is none |
| TaskLists.OneIsReady | detect/tasklist.go:38-67 | if the tasks can be arranged, then however some were placed one of the rest is supplied |
| TaskLists.TaskList.Test | detect/tasklist.go:84-125 | sorts on first use, then returns the specified results of the given task or of the roots; panics exactly if the tasks cannot be arranged or the task is unknown |
| TaskLists.TaskList.Run | detect/tasklist.go:87-125 | wherever the recursion terminates for every handler, it returns the specified results in order |
| TaskLists.ResultsAreDerivable | detect/tasklist.go:84-125 | a result is returned if and only if a chain of calls, each fed with an output of the one before, derives it |
| TaskLists.OwnResultsFirst | detect/tasklist.go:103-111 | a task's own results come first, in the order of its handler |
| TaskLists.ForEachOrder | detect/tasklist.go:118-121 | the results for one input follow all those for earlier inputs, without a gap |
| TaskLists.BelowOrder | detect/tasklist.go:114-123 | the results of one dependant follow all those of earlier ones in the list, without a gap |
| TaskLists.UniqueIdsSuffice | detect/tasklist.go:84-125 | with unique, non-empty ids and tasks that can be arranged the recursion always terminates |
| TaskLists.TerminatesExactly | detect/tasklist.go:84-125 | the recursion is no deeper than the list is long, counting the start, or its depth is not bounded at all |
| TaskLists.RecursionBoundedExactly | detect/tasklist.go:84-125 | the condition under which Test is proved is exact: where it fails, handlers that always succeed make chains of calls without bound |
| TaskLists.SharedIds | detect/tasklist.go:84-125 | shared ids may do no harm, or may make an ordered list recur without end |
| WorkerPool.RunInvariant | detect/work.go:14-70 | in every interleaving the queued, held and collected hosts together are the input, and hosts are tested once each |
| WorkerPool.ReturnedIsComplete | detect/work.go:34-70 | when Work returns, the tested and the collected hosts are the input, everything found is in the result and all workers are gone |
| WorkerPool.ReturnedFindsAll | detect/work.go:50-70 | each finding is in the result as often as testing the given hosts has it, whatever the order |
| WorkerPool.NeverStuckExactly | detect/work.go:14-70 | every run can go on until Work returns if and only if there is a worker or nothing to do |
| WorkerPool.RunsAreBounded | detect/work.go:14-70 | no run is longer than three steps a host, one a worker and five more |
| Pipes.SameIDExactly | util/param.go:13-19 | exactly when two parameters share a unique id |
| Pipes.DigitsAreDecimal | util/param.go:13-19 | a loadpoint number in a unique id reads back as a decimal number |
| Pipes.KeptIsSubsequence | util/pipe/limiter.go:44-95 | a filter invents, repeats and reorders nothing |
| Pipes.DedupKeepsLastValues | util/pipe/limiter.go:44-57 | after every message the last value forwarded under every id is the last one there was |
| Pipes.DedupDropsExactly | util/pipe/limiter.go:44-57 | exactly the filtered messages are dropped that repeat the last value within an interval of sending it |
| Pipes.LimiterSpaces | util/pipe/limiter.go:84-95 | messages forwarded under one id are at least an interval apart |
| Pipes.LimiterDropsExactly | util/pipe/limiter.go:84-95 | a message is dropped if and only if one of its id went out less than an interval before |
| Pipes.LimiterForwardsMost | util/pipe/limiter.go:84-95 | no choice of messages of one id that are an interval apart is longer than what is forwarded |
| Pipes.Deduplicator.Pipe | util/pipe/limiter.go:44-57 | the filter with its cache forwards what the rule without a cache says |
| Pipes.Limiter.Pipe | util/pipe/limiter.go:84-95 | the filter with its cache forwards what the rule without a cache says |
| Pipes.Dropper.Pipe | util/pipe/limiter.go:114-128 | forwards all messages under other keys, in order, and no others |
| TPLink.Encrypt | charger/tplink.go:162-168 | the loop computes the autokey encryption |
| TPLink.Decrypt | charger/tplink.go:185-198 | the loop computes the decryption of what fits the receive buffer, without the header |
| TPLink.DecodeEncode | charger/tplink.go:162-198 | decrypting what was encrypted gives it back |
| TPLink.EncodeDecode | charger/tplink.go:162-198 | encrypting what was decrypted gives it back |
| TPLink.RoundTrip | charger/tplink.go:185-198 | of a message as much comes back as fits the receive buffer, 8188 bytes, so all of it if and only if it fits |
| TPLink.HeaderIsLength | charger/tplink.go:170-171 | the four bytes are the length modulo 2^32, most significant first |
| TPLink.EncodeAt | charger/tplink.go:162-168 | the first byte is encrypted with 171, every other one with the encrypted byte before it |
| TPLink.DecodeAt | charger/tplink.go:192-198 | and decrypted likewise with the byte received before it |

## Left out

- Safety.LimitsInRange: says nothing about limits that are not positive, not ordered or, for whole amperes, not whole; Safety.RangeNeedsWholeMinimum shows that the last cannot be dropped.
- Safety.RunInvariant: supposes that the configured minimum and every minimum set later are positive, as Safety.OffNeedsPositiveMinimum shows to be needed for switching off.
- Safety.EnablesAreGuarded: does not bound the time after a change that syncCharger made, as OutOfSync.SwitchedTwiceAtOnce shows it cannot; nor, as in the code, a forced command or one after an elapsed timer.
- Safety.PhasesSwitchWhileOff: does not exclude a charger that was never read, nor a refused switch-off of syncCharger, as OutOfSync.NeverReadThenSwitched and OutOfSync.RefusedThenSwitched show it cannot.
- Outcomes.Precedence: supposes a charger that acknowledges every command of the cycle; the safety results do not.
- Balance.LoopSettles: supposes exact metering, an unclamped target, a ChargerEx charger, three phases if it can switch, and nothing that overrides PV control; Balance.GuessedLoopOvershoots also that the site has no battery.
- Estimation.RunIsConsistent: supposes vehicles of positive capacity; with a capacity of 0 the code divides by zero.
- TaskLists.ResultsAreDerivable: speaks of which results are returned, not of how often; TaskLists.TaskList.Run says that.
- Estimation.Estimator.RemainingDuration: leaves open what a division by zero, of a full vehicle that is to be charged further and tells a finish time, becomes as a duration; so does Go.
- TaskLists.TaskList.Test: supposes that the recursion terminates for every handler, exactly as TaskLists.RecursionBoundedExactly says; on other lists it may still end because handlers fail.
- LoadPoints.LoadPoint.IdentifyByCharger: takes the vehicle that carries an identity as given; matching identifiers by regular expressions is not modelled.
- LoadPoints.LoadPoint.IdentifyByStatus: takes the coordinator's pick as given; Fleets closes the loop with Coordination.
- LoadPoints.LoadPoint.UpdateVehicle: takes the estimated SoC, and whether it is polled, as given; Estimation says what it is. The refresh of vehicle APIs during the search is not modelled.
- Floating-point rounding: reals are exact.
- Several readings of the clock within one method: all of a method happens at one instant.
- Locks and data races: API calls are atomic steps between updates.
- A subtraction of times that saturates: a timer that was never set counts as elapsed.
- Configured phases other than 1 and 3, and a voltage that is not positive.
- The event bus library: handlers run at once, in the order of subscription.
- A charge rater or charge timer of the charger's own, and an energy meter that fails between start and stop.
- Target charging (`SetTargetCharge` and the SoC timer): its branch in Update is switched off in the code.
- Waking and stopping the vehicle through its own API around enabling and disabling, whose errors are ignored.
- The read-out of odometer and range, publishing to the user interface, push messages and logging.
- Retrying of meter reads: an answer is the one after all attempts.
- The loop over loadpoints and the scheduling of updates in `core/site.go`.
- Handlers of detection tasks: functions of task and input. The sorting and flattening of results in `postProcess`.
- Values that cannot be compared, which make the deduplicator panic, and a floating-point NaN, which differs from itself.
- The channels and goroutines around the stream filters: a stream is the sequence of its messages with their times.
- Sockets and JSON around the TP-Link cipher; a response is what one read returns.
- Drivers of chargers, meters and vehicles, network clients, configuration, the command line and the web front end.
