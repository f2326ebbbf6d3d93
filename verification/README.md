# Verified model of the Progress Claw machine

Progress Claw runs an arcade claw machine: a Raspberry Pi controller and dashboard
decide when a play may run, four GPIO wires carry that decision, and an Arduino moves
the machine while the gate wire is held low. This project models the logic that makes
that safe, and a handful of self-contained algorithms beside it, and proves what they
promise over every input and every run.

| part | modules |
|---|---|
| wires, controller, timers | `GpioAdapter`, `GpioLaws`, `RuntimeController`, `ControllerRuns`, `CalmCalls`, `ControllerTheorems`, `ControllerCalls` |
| firmware | `Firmware`, `FirmwareRuns`, `FirmwareTheorems`, `FirmwareOutcomes`, `FirmwareSketch` |
| controller, wires and firmware together | `PlayProtocol`, `PlayTiming`, `PowerScale` |
| dashboard | `Dashboard`, `DashboardOutcomes`, `DashboardServer`, `PlayCredits`, `AdminAuth`, `FrameSplitter`, `GreedySplit` |
| Wi-Fi helper | `WifiConfig`, `WifiConnect` |
| analytics | `AnalyticsStore`, `AnalyticsCollector`, `AnalyticsHistory`, `AnalyticsService` |
| vision, game state, recommendation, cloud | `FrameQueue`, `DetectionService`, `GameStateEngine`, `RecommendationEngine`, `CloudSync` |

Each component has one shape. What a call does to the state is a function on values;
a class performs the same call statement by statement, as the original does, and every
method is proved to end in the state the function gives. The results are lemmas about
whole runs of those functions. Everything outside a component is an argument: which pin
writes fail and whether they still took effect, which outputs are lost, what the clock
reads, what other threads do in between, how replies come out. A theorem without a
condition on such an argument holds for all of them. Time is in whole milliseconds or in
exact seconds.

`dafny verify dfyconfig.toml` checks the whole project.

## What the proofs found

- **A raise that both acts and fails.** The only pin fault that can leave the gate
  asserted without a running play or an emergency is a PLAY START write that raises after
  the pin has changed: the start is reported as failed and nothing lowers the gate.
  `ControllerTheorems.FalseAlarmIsTheOnlyHazard` gives the exact condition for any start
  under any faults, `SafeIffNoHazard` says which runs stay safe, and `HazardExample` is a
  run that does not.
- **A failed stop leaves a play without a timer.** `stop_play` raises the generation
  before it sends, so after a failed stop the running play has no live timer.
  `ControllerTheorems.TimerDiscipline` says exactly when it has one, and
  `FailedStopExample` is a run that ends this way.
- **Windows of 180 s and more.** The validator accepts 180 s of play plus 30 s of startup,
  the firmware cuts at 180 s, and a play cut off gets no end pulse. Before a start is made
  it can be told whether it is sure to be played out: if and only if startup, play and the
  delays of timers, wires and passes together stay below 180 s
  (`PlayTiming.PlayedOutIffWindowFits`). A direct start of 180 s without startup already
  does not fit, and without any delay a window of 180 s or more can be cut off while the
  controller still runs the play (`LongWindowIsCutOff`). In a run a play is cut off exactly
  when a pass finds its gate still low at the limit (`CutOffIffLowAtLimit`).
- **The end pulse has two long ON phases.** The documentation promises three. Homing
  switches D5 off in the pass that starts the pulse, so the first phase is long only if that
  one pass takes a second in between; the code is followed here
  (`FirmwareTheorems.EndPulseHasTwo`, `EndPulseStartsDark`).
- **Homing steps a clock period late.** The 60 s limit is compared on the wrapping clock.
  Within one period of it the limit holds, and only there
  (`FirmwareTheorems.HomingStepExactly`); `LateHomingStep` is a run, its passes about 25 days
  apart, that takes a homing step three periods after homing began.
- **The home request of a dashboard reset.** The wiring document says Reset pulses the
  gate with code 111. No Pi code does, and in runs without pin faults the firmware never
  reads a home request (`PlayProtocol.FirmwareFollowsController`). A loss between a start
  and the firmware's first pass can: `PlayTiming.FirstPassAfterLoss` says exactly what that
  pass reads, and `LossCanAskForHome` is a loss that turns the start into a home request.
- **END before BEGIN.** The Wi-Fi helper accepts a file whose END marker precedes its BEGIN
  marker and turns it into one every later call refuses (`WifiConfig.Spoiled`, with the text
  `EndBeforeBeginExample`); markers in order are exactly what is needed
  (`AcceptedStaysWellFormedIff`).
- **Two collects can differ.** Even with room for every key a second collect can add an
  event again (`AnalyticsCollector.SecondCollectCanStillAdd`); repeated collects settle if
  and only if there is room (`CollectsSettleIff`).
- **Credits are paid again after a fall.** A people count that falls back below a milestone
  and rises again earns the same credit twice (`PlayCredits.CreditsAreMilestonesIff`).
- **Fractions in retry_after.** The announced wait is the real one exactly when what is left
  is a whole number of seconds (`AdminAuth.RetryAfterIsExact`).

## Model

A cell that starts with *refines* names the function that the method is proved to compute
on the state of its object; what is promised of that function are the lemmas in the other
rows.

| member | source | states |
|---|---|---|
| GpioAdapter.GpioArduinoAdapter.CloseOutputs | controller/adapters/gpio_adapter.py:125-133 | *refines* `Close`: closing releases every output whose close works and forgets all of them, whichever raise |
| GpioAdapter.GpioArduinoAdapter.OpenOutputs | controller/adapters/gpio_adapter.py:83-108 | *refines* `Open`: outputs open gate first and off; the first failure closes whatever was opened |
| GpioAdapter.GpioArduinoAdapter.Connect | controller/adapters/gpio_adapter.py:67-108 | *refines* `AfterConnect`: a readiness check keeps usable outputs and otherwise closes and reopens all of them |
| GpioAdapter.GpioArduinoAdapter.SetPowerLevel | controller/adapters/gpio_adapter.py:175-180 | *refines* `WriteLevel`: bits are written one by one up to the first write that raises |
| GpioAdapter.GpioArduinoAdapter.SendCommand | controller/adapters/gpio_adapter.py:135-168 | *refines* `AfterSend`: the sequence of wire states a command produces under every write fault, and its answer |
| GpioLaws.ConnectLowers | controller/adapters/gpio_adapter.py:67-133 | no check, loss or reopening ever raises the gate; usable outputs are untouched or fresh with the gate off and level 0 |
| GpioLaws.WriteLevelSets | controller/adapters/gpio_adapter.py:175-180 | a confirmed level write leaves exactly that level on the bits and never moves the gate |
| GpioLaws.SendLowers | controller/adapters/gpio_adapter.py:135-168 | every command but PLAY START leaves the gate no higher, and a confirmed stop has released it |
| GpioLaws.SendStartRaises | controller/adapters/gpio_adapter.py:150-151 | a confirmed PLAY START has raised the gate; a failed one has not, unless the write took effect and raised |
| GpioLaws.ConnectReadyIff | controller/adapters/gpio_adapter.py:67-108 | a check leaves usable outputs exactly when none was lost or the library is there and all four can be opened; the error flag then says whether it gave up |
| GpioLaws.CloseReleases | controller/adapters/gpio_adapter.py:125-133 | closing releases the gate and lets each power wire float, but for the outputs whose close raises, and forgets them all |
| RuntimeController.RuntimeController.GetStatus | controller/core/runtime_controller.py:56-60 | *refines* `AfterStatus`: reading the status also checks, and may reopen, the outputs |
| RuntimeController.RuntimeController.Send | controller/core/runtime_controller.py:156-171 | *refines* `Dispatch`: a command is sent, the connection rechecked, and a failure becomes a fault |
| RuntimeController.RuntimeController.StartPlay | controller/core/runtime_controller.py:62-92 | *refines* `AfterStart`: validated start: power, then start, then a new generation with its own timer, or the state of the first failure |
| RuntimeController.RuntimeController.StopPlay | controller/core/runtime_controller.py:94-106 | *refines* `AfterStop`: the generation moves before the command is sent, also when it fails |
| RuntimeController.RuntimeController.SetClawPower | controller/core/runtime_controller.py:108-118 | *refines* `AfterSetPower`: the stored power changes only with a confirmed command |
| RuntimeController.RuntimeController.EmergencyStop | controller/core/runtime_controller.py:120-139 | *refines* `AfterEmergency`: the latch is set and the play forgotten whether or not the command worked |
| RuntimeController.RuntimeController.AutoStopAfterPlay | controller/core/runtime_controller.py:146-154 | *refines* `AfterTimer`: a waking timer of the current generation stops the play; any other does nothing |
| ControllerRuns.StepKeeps | controller/core/runtime_controller.py:62-182 | every call, timer and loss keeps the link between state, timers and command log |
| ControllerTheorems.TimerDiscipline | controller/core/runtime_controller.py:72-154 | a running play has a live timer if and only if no stop of it has failed; there is at most one, with the play's own end time |
| ControllerTheorems.TimerWakes | controller/core/runtime_controller.py:146-154 | a stale timer only uses itself up; the live one sends PLAY STOP and ends the play exactly when that is confirmed |
| ControllerTheorems.StartSchedulesStop | controller/core/runtime_controller.py:62-92 | a confirmed start sends exactly two commands and leaves one new timer, due when startup and play are over, 10 to 210 s away |
| ControllerTheorems.TraceLanguage | controller/core/runtime_controller.py:62-154 | in every log each PLAY START directly follows a confirmed CLAW POWER of the stored percentage, PLAY STOP comes only in a play, and the log alone tells the machine's state |
| ControllerTheorems.StartsAndStopsAlternate | controller/core/runtime_controller.py:62-154 | two starts have a confirmed stop between them, and after an EMERGENCY STOP nothing else is ever sent |
| ControllerTheorems.SafeIffNoHazard | controller/core/runtime_controller.py:56-171 | under all pin faults, losses and reopenings a run keeps the gate asserted only in a running play, or in an emergency whose last command failed, if and only if no start in it is valid where it is made and raises the gate in vain |
| ControllerTheorems.HazardExample | controller/core/runtime_controller.py:69-71 | a one-call run that leaves the gate asserted without a play |
| ControllerTheorems.GateSafety | controller/core/runtime_controller.py:56-171 | the same safety for every run in which no start's raise of the gate both acts and fails |
| ControllerTheorems.FailedStopExample | controller/core/runtime_controller.py:94-102 | a two-call run that ends with a running play and no live timer |
| ControllerTheorems.GateSurvivesIff | controller/adapters/gpio_adapter.py:67-108 | an asserted gate outlives a readiness check exactly when nothing is lost, or only power outputs are and the gate output can be neither closed nor reopened |
| ControllerTheorems.FalseAlarmIsTheOnlyHazard | controller/core/runtime_controller.py:62-71 | under any faults a start makes a safe state unsafe if and only if it is valid, powered and ready, the raise both acts and fails, and the check after it leaves the gate alone |
| ControllerTheorems.GateFollowsPlay | controller/core/runtime_controller.py:62-154 | without faults the gate is asserted exactly while a play runs |
| ControllerTheorems.StartNeverAsksForHome | controller/core/runtime_controller.py:62-71 | the first state a confirmed start raises the gate in never carries the reserved code, whatever is lost around it |
| CalmCalls.CalmStep | controller/core/runtime_controller.py:56-154 | without faults each call moves the gate at most once, in its last wire state, with the stored power at a start, 111 at a stop and 000 at an emergency |
| ControllerCalls.PowerIsWhatWasAsked | controller/core/runtime_controller.py:108-118 | under any faults a power setting is stored if and only if exactly that percentage was sent and confirmed, and then its level is what the command left on the wires; otherwise the old one stays, each error told by the arguments and the log |
| ControllerCalls.StopIsSent | controller/core/runtime_controller.py:94-106 | without a play nothing is sent; else PLAY STOP is, and the play is over exactly when it was confirmed; its timer is stale either way |
| ControllerCalls.EmergencyIsSent | controller/core/runtime_controller.py:120-139 | an emergency always sends one EMERGENCY STOP, latches and ends the play |
| ControllerCalls.StartIsSent | controller/safety/validator.py:20-34 | a start is refused unsent for the first of five reasons and no other; else the log grows by the stored power and, if that is confirmed, the start with the duration asked for |
| ControllerCalls.MockConfirms | controller/adapters/gpio_adapter.py:135-146 | a simulated machine confirms every command and moves no wire |
| ControllerCalls.StatusReports | controller/core/runtime_controller.py:56-60 | a status reading changes only its two flags, and says usable exactly when no output was lost or all could be opened |
| ControllerCalls.StatusTellsTheLog | controller/core/runtime_controller.py:62-182 | in every run the status is what the last telling command says, and an error shows exactly while the last command of all failed |
| ControllerCalls.CalmRunsAnswer | controller/safety/validator.py:20-56 | after every run without pin faults a start, a stop and a power setting succeed if and only if their arguments are in range and the commands sent so far allow them, and an emergency always does |
| FirmwareSketch.LinearActuator.MoveUp | arduino/sketches/arduino_claw/arduino_claw.ino:461-470 | *refines* `LinearMoveUp`: the other relay is written off before this one is written on |
| FirmwareSketch.LinearActuator.MoveDown | arduino/sketches/arduino_claw/arduino_claw.ino:472-481 | *refines* `LinearMoveDown`: the other relay is written off before this one is written on |
| FirmwareSketch.GrabberOutput.Begin | arduino/sketches/arduino_claw/arduino_claw.ino:517-533 | *refines* `StartPulse`: both pulses begin fully on with their first toggle counted |
| FirmwareSketch.GrabberOutput.Update | arduino/sketches/arduino_claw/arduino_claw.ino:535-555 | *refines* `UpdatePulse`: a pulse toggles when a second has passed on the wrapping clock and ends off at the sixth toggle |
| FirmwareSketch.Sketch.BeginHoming | arduino/sketches/arduino_claw/arduino_claw.ino:379-390 | *refines* `StartHoming`: homing stops the actuator, writes D5 off and restarts its clock |
| FirmwareSketch.Sketch.UpdateHoming | arduino/sketches/arduino_claw/arduino_claw.ino:392-453 | *refines* `UpdateHome`: one homing pass: arrive, time out with a fault, or one step |
| FirmwareSketch.Sketch.HandleStartEdge | arduino/sketches/arduino_claw/arduino_claw.ino:169-186 | *refines* `OnEdge`: a fresh low edge begins a play or, with code 111, asks for homing |
| FirmwareSketch.Sketch.HandleEnd | arduino/sketches/arduino_claw/arduino_claw.ino:188-201 | *refines* `OnLimit`: a play ends by the gate or the limit, with an end pulse only for a release with code 111 |
| FirmwareSketch.Sketch.HandleClosedGate | arduino/sketches/arduino_claw/arduino_claw.ino:209-233 | *refines* `WhileClosed`: outside a play the end pulse comes first, then homing, then everything is off |
| FirmwareSketch.Sketch.HandleControls | arduino/sketches/arduino_claw/arduino_claw.ino:239-337 | *refines* `OnControl`: what a pass that reaches the controls does to the grabber and the actuator |
| FirmwareSketch.Sketch.Loop | arduino/sketches/arduino_claw/arduino_claw.ino:153-358 | *refines* `Pass`: one pass of the loop on the gate, the power bits, the switch and the wrapping clock |
| FirmwareRuns.PassKeeps | arduino/sketches/arduino_claw/arduino_claw.ino:153-358 | every pass keeps relays apart, pulses in shape and the play inside its limit |
| FirmwareTheorems.ControlOnlyWithinPlay | arduino/sketches/arduino_claw/arduino_claw.ino:169-247 | control code is reached only with the gate low, less than 180 s of true time after the start edge and after three full ON phases of the startup pulse |
| FirmwareTheorems.PlayEndsExactly | arduino/sketches/arduino_claw/arduino_claw.ino:188-200 | a play with its gate held low is cut off by exactly the limit, without an end pulse; a released one ends in that pass, with an end pulse exactly for code 111; either way homing begins and the actuator stops |
| FirmwareTheorems.EndPulseHasTwo | arduino/sketches/arduino_claw/arduino_claw.ino:195-199 | the whole of an undisturbed end pulse has two ON phases of a second or more, not the documented three, unless the one pass that starts it and switches it off takes a second in between |
| FirmwareTheorems.EndPulseStartsDark | arduino/sketches/arduino_claw/arduino_claw.ino:379-390 | the pass that starts an end pulse leaves D5 off although the pulse counts it as on |
| FirmwareTheorems.RelaysNeverBoth | arduino/sketches/arduino_claw/arduino_claw.ino:455-481 | the two actuator relays are never on together, between any two writes of any run |
| FirmwareTheorems.FaultLasts | arduino/sketches/arduino_claw/arduino_claw.ino:447-453 | after a homing fault there is never again a play, a step, grabber output or a relay on |
| FirmwareTheorems.HomingStepExactly | arduino/sketches/arduino_claw/arduino_claw.ino:392-420 | in every run every homing step goes towards home with the switch sampled open, and comes within 60 s of true time if and only if it comes within one period of the clock |
| FirmwareTheorems.LateHomingStep | arduino/sketches/arduino_claw/arduino_claw.ino:392-420 | a timely run from setup whose only homing step comes three clock periods after homing began |
| FirmwareTheorems.HomingStepIsSafe | arduino/sketches/arduino_claw/arduino_claw.ino:392-420 | with less than 2^28 ms from pass to pass every homing step comes within 60 s of true time |
| FirmwareOutcomes.PassTells | arduino/sketches/arduino_claw/arduino_claw.ino:169-201 | what a pass tells from its own samples: a play begun or a home request, and its end by gate or limit, each exactly when the edge, the code and the true time say so |
| FirmwareOutcomes.SwitchEndsHoming | arduino/sketches/arduino_claw/arduino_claw.ino:392-453 | a resting pass that samples the switch active ends homing at once, whatever the time, and the next one leaves the machine idle |
| FirmwareOutcomes.OpenSwitchHomes | arduino/sketches/arduino_claw/arduino_claw.ino:413-423 | with the switch open it is a fault exactly when 60 s have passed on the clock, and else one step in the home direction |
| FirmwareOutcomes.EndBeginsHoming | arduino/sketches/arduino_claw/arduino_claw.ino:169-201 | the end of a play and a home request begin homing in that very pass with relays and, outside an end pulse, D5 off |
| FirmwareOutcomes.FaultIff | arduino/sketches/arduino_claw/arduino_claw.ino:392-420 | in every run a pass brings a homing fault if and only if it homes, samples the switch open and the time is up |
| FirmwareOutcomes.HomingArrives | arduino/sketches/arduino_claw/arduino_claw.ino:392-453 | in every run a homing machine that samples its switch active is idle two passes later without a step and takes the next start |
| FirmwareOutcomes.PulseStep | arduino/sketches/arduino_claw/arduino_claw.ino:535-555 | a pass makes the next toggle of a pulse if and only if its second is over, off and on in turn, and the sixth is the last |
| FirmwareOutcomes.PulseEnds | arduino/sketches/arduino_claw/arduino_claw.ino:535-555 | a pulse is over after exactly as many due passes as it has toggles left |
| FirmwareOutcomes.PlayComesHome | arduino/sketches/arduino_claw/arduino_claw.ino:188-233 | a play ended with an end pulse comes home: the due toggles and two passes, the first with the switch active, leave the machine idle and ready, without a fault or a step |
| FirmwareOutcomes.OutsidePlayAllOff | arduino/sketches/arduino_claw/arduino_claw.ino:209-233 | in every run a pass that ends outside a play leaves both relays off, and D5 too unless an end pulse is running |
| FirmwareOutcomes.ControlsReachedIff | arduino/sketches/arduino_claw/arduino_claw.ino:239-247 | in a play the controls are reached if and only if the startup pulse is over |
| FirmwareOutcomes.ControlsDo | arduino/sketches/arduino_claw/arduino_claw.ino:239-337 | the grabber switch holds D5 at the strength of the power bits, and the stick moves the actuator up above the dead zone, down below it, and not at all inside it or without the remote |
| PlayProtocol.CallTurns | controller/adapters/gpio_adapter.py:147-159 | the wire states of a call move the gate exactly when the call starts or stops a play, and show 111 exactly for a PLAY STOP |
| PlayProtocol.PlayKeeps | arduino/sketches/arduino_claw/arduino_claw.ino:169-201 | calls, wire states and passes in any order keep controller and firmware at most one event apart, cut-offs included |
| PlayProtocol.FirmwareFollowsController | controller/core/runtime_controller.py:62-154 | for every window the validator accepts the firmware's plays are the controller's confirmed starts one by one and in order, each end as asked for or a cut-off, and no start is read as a home request |
| PlayProtocol.AskedCounts | controller/adapters/gpio_adapter.py:150-159 | what is asked for is one play per confirmed start, one end pulse per confirmed PLAY STOP, and an end without for an emergency in a play |
| PlayTiming.CutOffIffLowAtLimit | arduino/sketches/arduino_claw/arduino_claw.ino:188-200 | in every joint run a play is told as cut off if and only if some pass found its gate low at the limit |
| PlayTiming.CutOffMeansTooLong | controller/core/runtime_controller.py:77-85 | with timers and wires on time a play cut off is one whose window and delays do not fit in 180 s |
| PlayTiming.FittingPlaysEndAsAsked | controller/core/runtime_controller.py:146-154 | with timers and wires on time and windows that fit, the firmware tells exactly the sessions asked for: no cut-off, and an end pulse exactly where PLAY STOP, the timer's included, ended the play |
| PlayTiming.PlayedOutIffWindowFits | controller/safety/validator.py:20-56 | with delays that together stay below 180 s, a valid start is played out in every punctual run if and only if its window and those delays together do |
| PlayTiming.LongWindowIsCutOff | controller/safety/validator.py:15-16 | every valid start with a window of 180 s or more has a run without faults or delays in which the firmware cuts it off while the controller runs it |
| PlayTiming.FirstPassAfterLoss | controller/adapters/gpio_adapter.py:110-123 | exactly when a loss between a start and the first pass makes that pass read the start, a home request or nothing |
| PlayTiming.LossCanAskForHome | controller/adapters/gpio_adapter.py:110-123 | a loss of the three power outputs that turns a start into a home request |
| PowerScale.ShownIsNearest | dashboard/backend/dashboard_state.py:269-280 | the shown power is a nearest step to the one asked for, the even one half-way, and showing it again changes nothing |
| PowerScale.StrengthArrives | arduino/sketches/arduino_claw/arduino_claw.ino:491-499 | for every percentage asked for the firmware holds with the shown percentage of full PWM, more never means weaker, and no setting means the reserved code |
| DashboardServer.Server.DashboardState | dashboard/backend/dashboard_state.py:116-142 | *refines* `Refresh`: a refresh forgets a play the controller no longer runs |
| DashboardServer.Server.StopPlay | dashboard/backend/dashboard_state.py:390-401 | *refines* `StopGame`: a stop that raises leaves the panel as it was |
| DashboardServer.Server.ApiPlayStart | dashboard/backend/routes_api.py:24-48 | *refines* `HandleApiPlayStart`: a direct start is refused in maintenance and shows on the panel only when confirmed |
| DashboardServer.Server.ApiPlayStop | dashboard/backend/routes_api.py:51-69 | *refines* `HandleApiPlayStop`: a direct stop clears the panel only when confirmed |
| DashboardServer.Server.ApiClawPower | dashboard/backend/routes_api.py:72-90 | *refines* `HandleApiClawPower`: a power request changes only the controller |
| DashboardServer.Server.ApiEmergencyStop | dashboard/backend/routes_api.py:93-108 | *refines* `HandleApiEmergencyStop`: an emergency clears the panel in any case |
| DashboardServer.Server.Play | dashboard/backend/routes_api.py:182-231 | *refines* `HandlePlay`: a play needs all five guards, and is charged only after a confirmed start |
| DashboardServer.Server.Stop | dashboard/backend/routes_api.py:234-243 | *refines* `HandleStop`: a stop of nothing is refused, a failed one keeps the play on the panel |
| DashboardServer.Server.Reset | dashboard/backend/routes_api.py:246-267 | *refines* `HandleReset`: a reset whose stop raises changes nothing else |
| DashboardServer.Server.DisableMachine | dashboard/backend/routes_api.py:155-160 | *refines* `HandleDisable`: disabling stops a running play first |
| DashboardServer.Server.Maintenance | dashboard/backend/routes_admin.py:88-107 | *refines* `HandleMaintenance`: maintenance is entered only past a stop that worked |
| DashboardServer.Server.SystemAction | dashboard/backend/routes_admin.py:144-176 | *refines* `HandleSystemAction`: a power or Wi-Fi action runs only in maintenance with no play on the panel |
| DashboardServer.Server.KioskAction | dashboard/backend/routes_admin.py:110-141 | *refines* `HandleKioskAction`: a kiosk action runs only with no play on the panel |
| Dashboard.RefreshAgrees | dashboard/backend/dashboard_state.py:116-126 | after a refresh the panel shows a play if and only if the controller runs one |
| Dashboard.StopGameKeeps | dashboard/backend/dashboard_state.py:390-401 | a stop that returns has left both machines idle, whatever timers did in between |
| Dashboard.HandleKeeps | dashboard/backend/routes_api.py:24-267 | every request keeps the two machines in step |
| Dashboard.TwoMachinesAlways | dashboard/backend/routes_admin.py:71-217 | in all runs a running controller shows on the panel, maintenance means an idle controller, and every privileged action ran with an idle controller |
| Dashboard.CreditsAreConserved | dashboard/backend/routes_api.py:182-267 | in every run credits never go below zero, and without a reset credits left and plays made grow together by exactly the credits earned |
| DashboardOutcomes.PlayIsPaidIffStarted | dashboard/backend/routes_api.py:182-231 | a play request takes one credit and counts one play if and only if it was no test and the controller confirmed a start during it, which needs all five guards; any start uses up the photo, and nothing else changes the three |
| DashboardOutcomes.GuardedPlayStarts | dashboard/backend/routes_api.py:182-231 | without faults a request that meets the five guards on an idle machine does start a play of the duration set, in the mode asked for |
| DashboardOutcomes.DirectStartStarts | dashboard/backend/routes_api.py:24-48 | without faults a direct start outside maintenance starts a play of the clamped duration without startup, and in maintenance nothing happens |
| DashboardOutcomes.DurationIsNearest | dashboard/backend/dashboard_state.py:343-344 | the duration is the one asked for or the nearest of 10 to 180 s |
| DashboardOutcomes.StopsAchieve | dashboard/backend/routes_api.py:234-243 | a stop request does nothing without a play on the panel, leaves both machines idle unless its stop raises, and then keeps or corrects the panel by route |
| DashboardOutcomes.ResetAchieves | dashboard/backend/routes_api.py:246-267 | a reset leaves both machines idle with no photo, credit or play counted, unless its stop raises and the panel stays as it was |
| DashboardOutcomes.DisableAchieves | dashboard/backend/routes_api.py:155-160 | disabling with a play stops it, unless the stop raises and the panel is left disabled with all else unchanged |
| DashboardOutcomes.MaintenanceAchieves | dashboard/backend/routes_admin.py:88-107 | maintenance becomes what was asked for unless a stop it needs raises, and entering it leaves the controller idle |
| DashboardOutcomes.CalmStopStops | dashboard/backend/dashboard_state.py:390-401 | without faults a stop leaves the machine idle, and raises only if the play ended by itself in between |
| DashboardOutcomes.ActionsAchieve | dashboard/backend/routes_admin.py:110-176 | a privileged action is performed exactly under its guards, once a request |
| DashboardOutcomes.WhatOpensAPlay | dashboard/backend/routes_api.py:24-267 | over all requests a photo comes only from taking one, a credit only from an earned one, and the end of maintenance only from asking for it |
| DashboardOutcomes.PowerRequestStores | dashboard/backend/routes_api.py:72-90 | without faults a power request in range before any emergency is stored by the controller as asked |
| DashboardOutcomes.EmergencyAchieves | dashboard/backend/routes_api.py:93-108 | an emergency request always latches and leaves both machines idle; a confirmed direct stop leaves both idle |
| DashboardOutcomes.StatusAgrees | dashboard/backend/dashboard_state.py:116-142 | a status request drops the play and its photo exactly when the controller no longer runs one, and keeps credits, counts and maintenance |
| PlayCredits.Counter.SetPeople | dashboard/backend/dashboard_state.py:160-173 | *refines* `Recounted`: a new count pays for the milestones it gains |
| PlayCredits.CreditsAreMilestonesIff | dashboard/backend/dashboard_state.py:160-173 | over any counts the credits are the milestones gained if and only if no count ever fell back below one |
| AdminAuth.LoginGuard.Login | dashboard/backend/admin_auth.py:51-70 | *refines* `Authenticate`: one login on the pruned deque of its client |
| AdminAuth.LockoutRefinesHistory | dashboard/backend/admin_auth.py:51-70 | a login is refused, right PIN or not, if and only if five failures since the last success are newer than 300 s; the deque kept is exactly those failures |
| AdminAuth.RefusedIffFiveHeld | dashboard/backend/admin_auth.py:51-70 | by the log alone: refused if and only if exactly five wrong PINs of that client, newer than 300 s and after its last success, are held against it; else accepted if and only if the PIN is right |
| AdminAuth.FiveFailuresPerWindow | dashboard/backend/admin_auth.py:54-66 | between successes the sixth failure after any failure comes 300 s later |
| AdminAuth.RetryAfterIsExact | dashboard/backend/admin_auth.py:57-59 | a quiet refused client is refused until the remaining time is over and no longer; the announced time is that time without its fraction, at least one second, so that time itself if and only if it is whole |
| FrameSplitter.DrainBuffer | dashboard/backend/dashboard_state.py:472-480 | the inner loop cuts off all complete frames, keeps the rest, and discards only an overlong one |
| FrameSplitter.SplitChunks | dashboard/backend/dashboard_state.py:466-483 | the buffer never exceeds 4 MiB and one chunk, and without a discard the frames are those of the whole stream |
| FrameSplitter.SplitInTwo | dashboard/backend/dashboard_state.py:472-480 | splitting the rest together with the next bytes finishes the split of both |
| FrameSplitter.ChunkingDoesNotMatter | dashboard/backend/dashboard_state.py:466-483 | any two ways of chunking the same bytes give the same frames and the same rest |
| FrameSplitter.NeverCutIffNeverOverlong | dashboard/backend/dashboard_state.py:475-477 | a stream loses nothing under every chunking if and only if no front of it leaves an overlong rest, and that is decided by the chunking into single bytes |
| FrameSplitter.FramesAreSlices | dashboard/backend/dashboard_state.py:472-480 | in all runs, discards included, frames are disjoint slices of the stream in order, from FF D8 to the first FF D9 |
| GreedySplit.SplitIsTheGreedyOne | dashboard/backend/dashboard_state.py:472-480 | the cuts are the one greedy splitting: no complete frame lies in the rest, no start marker before a cut or between two, and each cut ends at its first end marker |
| GreedySplit.DiscardKeepsSplitMarker | dashboard/backend/dashboard_state.py:475-477 | what survives a discard is the last two bytes, so a start marker cut in two by it is still found |
| WifiConfig.BlockIsFaithful | scripts/system/progress-claw-wifi:80-96 | the written block determines the network: no two networks give the same block |
| WifiConfig.BlockIsLines | scripts/system/progress-claw-wifi:80-96 | the block is ten given lines with the name and the key as hexadecimal |
| WifiConfig.HexReads | scripts/system/progress-claw-wifi:80-96 | two digits a byte, in order, the high one first |
| WifiConfig.NoStraddle | scripts/system/progress-claw-wifi:99-112 | no marker arises across a seam between the block and the text around it |
| WifiConfig.ReplacesInPlace | scripts/system/progress-claw-wifi:107-112 | a marked block is replaced where it stands, every other byte is kept, and exactly one ordered pair of markers remains |
| WifiConfig.AppendsBlock | scripts/system/progress-claw-wifi:105-106 | an unmarked text keeps all but its trailing space and gains exactly one block |
| WifiConfig.TrailingBlanksDoNotMatter | scripts/system/progress-claw-wifi:105-106 | blanks at the end of an unmarked text change nothing, and a text ending in a visible character is kept whole |
| WifiConfig.LastUpdateWins | scripts/system/progress-claw-wifi:99-112 | updating with a and then with b is updating with b |
| WifiConfig.UpdateIsIdempotent | scripts/system/progress-claw-wifi:99-112 | updating twice with the same network is updating once |
| WifiConfig.OnlyLastUpdateMatters | scripts/system/progress-claw-wifi:99-112 | any number of updates of a well-formed text succeeds and equals the last alone |
| WifiConfig.AcceptedStaysWellFormedIff | scripts/system/progress-claw-wifi:100-112 | an accepted text comes out well-formed if and only if its BEGIN comes before its END |
| WifiConfig.Spoiled | scripts/system/progress-claw-wifi:100-112 | END before BEGIN is accepted once and refused by every later update |
| WifiConfig.EndBeforeBeginExample | scripts/system/progress-claw-wifi:100-112 | a two-line text for which this happens |
| WifiConnect.WifiHelper.Activate | scripts/system/progress-claw-wifi:289-308 | write, reconfigure and poll, each of which may fail, within attempts + 1 commands |
| WifiConnect.WifiHelper.Transact | scripts/system/progress-claw-wifi:272-318 | at every point the file is the old or the new one and the old one is not lost; an error leaves the old one exactly when the restoring replace happened or nothing had changed; at most attempts + 3 commands |
| WifiConnect.WifiHelper.Connect | scripts/system/progress-claw-wifi:252-318 | the whole call, including a configuration that cannot be updated |
| WifiConnect.SuccessWasObserved | scripts/system/progress-claw-wifi:273-306 | a call succeeds if and only if it has itself seen the managed network COMPLETED, at once or in a poll it really made after everything before it had worked |
| WifiConnect.TimeoutMeansNeverJoined | scripts/system/progress-claw-wifi:293-308 | a time-out means every attempt was answered and none was joined |
| WifiConnect.ErrorTells | scripts/system/progress-claw-wifi:272-318 | each error if and only if the step it names failed, told by the writes, commands and polls of the call |
| WifiConnect.WaitsForTheBlock | scripts/system/progress-claw-wifi:298-304 | what a poll waits for is COMPLETED and the very identifier the block carries |
| WifiConnect.EveryPointIsUsable | scripts/system/progress-claw-wifi:252-318 | interrupted anywhere, the file left can be updated as if nothing had happened |
| AnalyticsStore.AddKeepsValid | analytics/store.py:37-47 | deques stay aligned and bounded, real keys distinct and equal to the membership set, through every add and eviction |
| AnalyticsStore.PresentAfterAdd | analytics/store.py:41-46 | discarding the evicted key and adding the new one leaves exactly the keys still stored |
| AnalyticsStore.AnalyticsStore.AddEvent | analytics/store.py:37-47 | *refines* `Add`: an event is added newest first unless its key is known |
| AnalyticsStore.AnalyticsStore.Query | analytics/store.py:49-92 | the early-leaving loop gives the first `limit` matches, and fails exactly for a limit out of range, a start after the end, or a bad timestamp met before they are found |
| AnalyticsHistory.AddPutsFirst | analytics/store.py:37-47 | an unknown key puts its event and itself at the head and moves all else back by one, the oldest out of a full store; a known key changes nothing |
| AnalyticsHistory.StoreHoldsNewest | analytics/store.py:37-47 | after any run of adds the store holds the newest accepted events, each with its own key, newest first and as many as fit |
| AnalyticsHistory.MatchingIsSubsequence | analytics/store.py:64-92 | the matches are exactly the matching events in the order of the store |
| AnalyticsHistory.FilterMeaning | analytics/store.py:64-92 | a filter asks for what each of its parts asks alone, and each part for what its name says, absent and empty ones for nothing |
| AnalyticsCollector.EachKeyOnce | analytics/service.py:38-129 | with room for every source key no key is ever added twice over any number of collects |
| AnalyticsCollector.CollectsSettleIff | analytics/service.py:38-129 | repeated collects come to rest, after at most one more than the number of keys, if and only if there is room for all keys |
| AnalyticsCollector.NoEvictionSettlesAtOnce | analytics/service.py:38-129 | a collect that evicts nothing is followed by one that adds nothing |
| AnalyticsCollector.SecondCollectCanStillAdd | analytics/service.py:38-129 | two collects can differ although there is room for all keys |
| AnalyticsHistory.FirstCollect | analytics/service.py:38-129 | a collect of new sources leaves, newest first, the recommendations, the game states, the detection, the runtime event if the status has changed, and all that was there |
| AnalyticsService.AnalyticsService.ReplayHistory | analytics/service.py:96-129 | *refines* `AddAll`: a newest-first history is added oldest first |
| AnalyticsService.AnalyticsService.Collect | analytics/service.py:38-94 | *refines* `AfterCollect`: one collect is the replay of runtime, detection, games and recommendations in that order |
| FrameQueue.FrameQueue.Put | vision/frame_queue.py:26-38 | frame n is the n-th frame put and fills the slot |
| FrameQueue.FrameQueue.WaitForNext | vision/frame_queue.py:44-59 | a frame found is the one in the slot, the newest put, and not the one last seen |
| FrameQueue.FrameQueue.Others | vision/frame_queue.py:26-64 | any interleaving of puts and clears extends the numbering and keeps the slot at the last frame or empty |
| DetectionService.DetectionService.Infer | vision/detection_service.py:68-92 | the frame inferred is the one in the slot, or at least as new as the one that woke the consumer if that was cleared; the inference starts at once when the interval is over and else exactly at its end, or not at all if told to stop |
| DetectionService.DetectionService.Run | vision/detection_service.py:57-96 | against all interleavings inferred frames are real and strictly newer each time, inferences are an interval apart, and one quiet round leaves nothing unseen |
| GameStateEngine.GameStateEngine.Evaluate | game/state_engine.py:184-275 | *refines* `Reported`: one evaluation in the engine's own order of decisions |
| GameStateEngine.SeenIsLastPerson | game/state_engine.py:237-239 | the tracked time is that of the last counted person in the whole history |
| GameStateEngine.IdleMeansNobodyLately | game/state_engine.py:237-275 | an empty machine is reported if and only if people were counted, nobody is shown and everyone ever counted is at least the timeout old |
| GameStateEngine.IdleWithPositiveTimeout | game/state_engine.py:257-275 | with a positive timeout a person in view is never an empty machine |
| GameStateEngine.ChangeIsAgainstLastShown | game/state_engine.py:237-267 | a changed count is reported if and only if it differs from the last count shown with no empty report in between |
| GameStateEngine.FirstThingTold | game/state_engine.py:194-232 | an error, a time-out, a grab, a prize and a play are each reported if and only if the inputs say so and none of those before it do |
| GameStateEngine.PlayersAreCounted | game/rules.py:51-60 | the count is the number of people seen clearly enough |
| GameStateEngine.PeopleTold | game/state_engine.py:233-275 | when people are counted: seen, recently seen, idle and no detection, each exactly by the people in view now and over the history |
| RecommendationEngine.RecommendationEngine.Evaluate | recommendation/engine.py:154-251 | *refines* `Advise`: one evaluation: durations first, then advice by priority |
| RecommendationEngine.SinceIsRunStart | recommendation/engine.py:229-251 | a tracked start is the first reading of the longest unbroken run, and there is none when the condition is off |
| RecommendationEngine.AdviceIsAboutUnbrokenRuns | recommendation/engine.py:165-214 | ready, demo and check-controller are advised if and only if an unbroken run of readings spans the configured time and nothing of higher priority holds |
| RecommendationEngine.OtherAdvice | recommendation/engine.py:165-227 | degraded, check-camera, wait and no-action are advised if and only if the reading and the unbroken runs say so |
| CloudSync.CloudSyncService.Connect | cloud/sync_service.py:52-64 | *refines* `AfterConnect`: a throttled or failed attempt, or one recorded success |
| CloudSync.CloudSyncService.ValidateSchema | cloud/sync_service.py:66-98 | *refines* `AfterCall`: a failed query throws the client away and schedules a retry |
| CloudSync.CloudSyncService.UpdateMachineStatus | cloud/sync_service.py:100-135 | *refines* `AfterCall`: update, falling back to insert; either error throws the client away |
| CloudSync.CloudSyncService.FetchMachineStatus | cloud/sync_service.py:137-187 | *refines* `AfterCall`: a missing record is connected but neither success nor failure |
| CloudSync.CloudHealthTracker.Failure | cloud/health.py:53-61 | a failure disconnects and counts once in both counters |
| CloudSync.FactoryIsThrottled | cloud/sync_service.py:52-64 | after any failure the client factory is left alone for the retry time, whatever is called in between |
| CloudSync.ThrottleLiftsOnTime | cloud/sync_service.py:52-64 | a disconnected service calls the factory if and only if every failure is at least the retry time old |
| CloudSync.HealthTellsTheTruth | cloud/health.py:39-61 | health is connected exactly when the client is, and its counters are the failures since the last success and in all |
| CloudSync.CallAnswers | cloud/sync_service.py:52-187 | after any run what a call answers and leaves in the health record, told by its own inputs: nothing while throttled, the first error with both counters and a disconnect, a missing record as neither, and else success |

## Left out

- FirmwareTheorems.HomingStepIsSafe: assumes less than 2^28 ms (three days) from one pass to the next, where a tighter sum of pulse and homing times would do.
- PlayProtocol.FirmwareFollowsController: a pass reads the gate once and sees it before or after each pin write, never during one, and the firmware looks at least once between two controller calls.
- PlayTiming.FittingPlaysEndAsAsked: Pi and Arduino milliseconds are one true time; drift between the two clocks is not modelled.
- DetectionService.DetectionService.Run: speaks of any finite number of rounds of the endless loop.
- CloudSync.CloudSyncService.ValidateSchema: is one atomic step; the original holds no lock across it.
- Dashboard.TwoMachinesAlways: every request and every controller call is atomic under its lock; how threads are scheduled inside a lock is not modelled.
- Controller over the serial port: only the GPIO transport is modelled.
- Command texts: commands are values, so empty and unknown command lines, the mock log and the response messages do not occur.
- `clear_emergency_for_tests` and the unused `run_play_window` and start-output path.
- Stepper movement, button reading, stick scaling, buzzer and X-axis homing, which is switched off by a constant.
- Flask parsing, confirmation phrases, sessions, JSON answers, event texts, player photos and histories.
- The settings, people and AI routes other than disabling; their power changes are the controller's, and the counter is modelled by itself.
- Wi-Fi helper: credential checks, file metadata checks, the lock file, size and UTF-8 limits, the scan table and the parsing of status lines; the network key is any byte string.
- `AnalyticsStore.summary` and the building of events from cache entries; keys are given and never empty, as all key formats are.
- YAML readers, logging, CSV, retention, the camera command and the detector itself.
- Python floats: times and confidences are exact numbers, so rounding is not modelled.
- Engines called from several threads at once: evaluations are taken one after another.
