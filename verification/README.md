# RTS2: verified models of the observatory's control logic

A Dafny model of the parts of RTS2 that move hardware or decide for it, with proofs of what they
promise over all runs. `dafny verify dfyconfig.toml` checks everything.

| file | models |
|---|---|
| Ford.dfy | the serial I/O board: reads that fail, writes that get lost, whole-port rewrites |
| Bart.dfy, D50.dfy, Perek2m.dfy | the three roof drivers |
| Dome.dfy | the roof state machine with retries, waits and emergency |
| BartSystem.dfy, D50System.dfy | state machine, driver and board together |
| Centrald.dfy | opening and closing devices in sequence, the weather and stop verdicts |
| Camera.dfy | queued exposures, blocks, frame transfer and readout |
| CameraExposures.dfy | the exposures a camera shows, and those that wait |
| ReadoutStatistics.dfy | statistics of an image, chunk by chunk |
| Cooler.dfy | the setpoint ramp and the stability flag |
| V4lStack.dfy | stacking, flipping and binning of video frames |
| ExposureTime.dfy | exposure times, saturation limits, accumulation |
| TargetIds.dfy, Sexagesimal.dfy | agreement on a target id, coordinate texts |

Every step of a program is a function from state and environment to the new state; what the environment
does (answers of the board, the mount, the remote controller, the clock, the other site) is an input, so a
theorem over all inputs is one over every environment. The classes hold the fields the programs update,
and each of their methods is proved to do what its function says. The theorems are about the functions:
invariants of every run, mutual exclusion, refinement of a simple form, exact conditions.

Where the environment is recorded, a log is folded into a short story (which close is pending, how many
retries, what was seen before a command) independently of the fields that the program itself keeps.

## What was found

Where a property does not hold of the code, the condition under which it does is proved, with an input or a
run that fails:

- A close or open request whose probe finds the end switch already made marks the dome done without
  stopping the motor (BartSystem, D50System); on D50 a close that waits for the mount also leaves an
  opening motor running.
- A close or open request that sees the end switch only after its probe leaves the dome moving without
  motor and timeout (BartSystem).
- The three close retries are not renewed by an open request that finds the roof opened (Dome).
- A reply of the board is misread when a stray byte stands where port state is expected and the rest has
  not arrived yet (Ford).
- The close timeout of the coordinator is set only when the device changes and is not withdrawn, so a
  device may get less than its 180 s; failures outlive an interrupted closing (Centrald).
- An abort cannot end a readout but clears its state, so the next exposure starts during it; a failed
  exposure that cannot be aborted may let two queued ones run into each other (Camera).
- A refused start with frame transfer, or the abort of a failed exposure, may leave the state exposing
  without the hardware; settling optics may lose a queued exposure (CameraExposures).
- The error of an image that could not be sent is wiped from the state at once (CameraExposures).
- With frame transfer the mode leaves out what was read before the next exposure ended
  (ReadoutStatistics).
- No saturation is checked beyond 900 s, nor after the first sub-exposure, so a longer tmax or a rising
  twilight may saturate (ExposureTime).
- A negative coordinate rounded to zero loses its sign when parsed and printed again (Sexagesimal).

## Model

| member | source | states |
|---|---|---|
| Ford.PollIsIdle | base/dome/src/connford.cpp:57-122 | a poll changes no output; when it succeeds the cached relay byte is the true one |
| Ford.SetPinsEffect | base/dome/src/connford.cpp:147-165 | switching pins on sends the true port with just their bits raised, once, or changes nothing, whatever reads fail or writes are lost |
| Ford.ClearPinsEffect | base/dome/src/connford.cpp:168-250 | switching pins off sends the true port with just their bits cleared, once, or changes nothing |
| Ford.PinWritesAnswer | base/dome/src/connford.cpp:124-186 | a pin write succeeds if and only if both readings were answered and the write acknowledged |
| Ford.PinReadsAnswer | base/dome/src/connford.cpp:256-264 | isOn answers -1 if and only if the query failed, else whether the pin is off |
| Ford.HealthyRewrite | base/dome/src/connford.cpp:124-186 | on a line that answers and delivers, pins are switched, three uses of the line later |
| Ford.OnlyTwinMisreadsSwitchForeignPins | base/dome/src/connford.cpp:124-186 | whatever two readings come before a pin write: other pins are switched if and only if both were wrong about them in the same way and the write got through; with true readings the writes are those of zapni_pin and vypni_pin |
| Ford.BytesAreSetsOfBits | base/dome/src/connford.cpp:147-186 | the byte operations of the source are the set operations of the model |
| Ford.BitIsShift | base/dome/src/connford.cpp:31-53 | bit i of a port byte is the one a shift by i brings to the end |
| Ford.BitsTellTheByte | base/dome/src/connford.cpp:31-53 | two bytes with the same bits are the same |
| Ford.MisreadExactly | base/dome/src/connford.cpp:80-122 | for every stream and however much of it has arrived: a wrong state is believed if and only if the first four bytes echo both queries around it and nothing more has arrived |
| Ford.StrayOrLostBytesAreCaught | base/dome/src/connford.cpp:80-122 | with any stray bytes inserted, or any bytes lost, a reply that has arrived whole is rejected or read as sent, and accepted exactly when untouched; it is misread only with more bytes still on the line |
| Ford.OneStrayByteIsMisread | base/dome/src/connford.cpp:80-122 | for one stray byte at any place, nothing lost: the exact bytes with which it is misread |
| Ford.StrayStateIsBelieved | base/dome/src/connford.cpp:80-122 | so any other state of port B is believed when it precedes the true one |
| Ford.ReplacedByteIsBelieved | base/dome/src/connford.cpp:80-122 | of four bytes in all a wrong state is believed if and only if they are the answer for another state |
| Ford.FordConn.ReadPorts | base/dome/src/connford.cpp:80-122 | one query of both ports: caches and result as the exchange gives them |
| Ford.FordConn.ReadStablePort | base/dome/src/connford.cpp:124-144 | two reads that must agree before a write |
| Ford.FordConn.WritePort | base/dome/src/connford.cpp:155-164 | a port write, applied whole or lost |
| Ford.FordConn.SwitchOn | base/dome/src/connford.cpp:147-165 | raises the pins of a port it has read twice |
| Ford.FordConn.SwitchOff | base/dome/src/connford.cpp:168-186 | clears the pins of a port it has read twice |
| Ford.FordConn.ReadOutput | base/dome/src/connford.cpp:256-264 | state of a relay output, or the failure |
| Ford.FordConn.ReadInput | base/dome/src/connford.cpp:256-264 | state of an end switch, or the failure |
| Bart.StopMotorEffect | base/dome/bart/bart.cpp:163-173 | success means the motor is verified off; failure raises exactly one alarm; only the motor bit can have changed |
| Bart.EndOpenEffect | base/dome/bart/bart.cpp:235-242 | success exactly when the motor was stopped; the opening timeout is disarmed and the direction untouched |
| Bart.EndCloseEffect | base/dome/bart/bart.cpp:325-336 | success exactly when the motor was stopped; the closing timeout is disarmed |
| Bart.TurnEffect | base/dome/bart/bart.cpp:200-212 | success means the direction output was read back as wanted with the motor off; sockets keep their state |
| Bart.PowerUpEffect | base/dome/bart/bart.cpp:205-215 | success means the motor runs the way asked for under a fresh timeout; failure means it is off or the alarm was raised |
| Bart.StartOpenEffect | base/dome/bart/bart.cpp:186-215 | after success the motor is off or runs open under a timeout; after failure it is off, the alarm was raised, or the call only looked |
| Bart.StartCloseEffect | base/dome/bart/bart.cpp:244-298 | the same for closing, with every reading of switch, motor and direction |
| Bart.PollsRespectTheTimeouts | base/dome/bart/bart.cpp:217-323 | polls change nothing and never answer "keep waiting" past an armed timeout; "closed" needs the closed switch |
| Bart.StartOpenTimes | base/dome/bart/bart.cpp:186-242 | an opening that startOpen starts ends 20 s after its return, and no closing timeout is left; found opened, its timeout is disarmed and success means the motor could be stopped; failure leaves both timeouts |
| Bart.StartCloseTimes | base/dome/bart/bart.cpp:244-336 | the same for startClose; a close found running keeps its timeout, or gets 20 s |
| Bart.HealthyOpen | base/dome/bart/bart.cpp:186-215 | on a line that answers and delivers an open request succeeds: the motor runs open, or is off if the open switch is seen |
| Bart.HealthyClose | base/dome/bart/bart.cpp:244-298 | a close request runs the motor closed, leaves one that runs closed, stops it at the closed switch, and fails exactly while it runs open |
| Bart.HealthyEndOpen | base/dome/bart/bart.cpp:235-242 | the end of an opening switches the motor off |
| Bart.HealthyEndClose | base/dome/bart/bart.cpp:325-336 | the end of a close switches motor and direction off |
| Bart.HealthyRound | base/dome/bart/bart.cpp:360-379 | after a round each socket is powered, its relay off, exactly as wanted, and no other output changed |
| Bart.SocketWritesSpareTheRoof | base/dome/bart/bart.cpp:360-379 | a socket write changes that socket or nothing, never motor or direction |
| Bart.BartRoof.TryToStop | base/dome/bart/bart.cpp:163-173 | state, board and result are those of the specification function: one write and check of stopMotor |
| Bart.BartRoof.Stop | base/dome/bart/bart.cpp:163-173 | state, board and result are those of the specification function: the retry loop of stopMotor and its alarm |
| Bart.BartRoof.IsRunning | base/dome/bart/bart.cpp:175-180 | state, board and result are those of the specification function: the motor output read back |
| Bart.BartRoof.SetDirection | base/dome/bart/bart.cpp:200-212 | state, board and result are those of the specification function: direction written and read back |
| Bart.BartRoof.SwitchMotor | base/dome/bart/bart.cpp:205-212 | state, board and result are those of the specification function: motor on, checked |
| Bart.BartRoof.StartMotor | base/dome/bart/bart.cpp:205-215 | state, board and result are those of the specification function: motor on with its timeout, or stopped again |
| Bart.BartRoof.FinishOpening | base/dome/bart/bart.cpp:235-242 | state, board and result are those of the specification function: endOpen |
| Bart.BartRoof.FinishClosing | base/dome/bart/bart.cpp:325-336 | state, board and result are those of the specification function: endClose |
| Bart.BartRoof.Open | base/dome/bart/bart.cpp:186-215 | state, board and result are those of the specification function: startOpen |
| Bart.BartRoof.Close | base/dome/bart/bart.cpp:244-298 | state, board and result are those of the specification function: startClose |
| Bart.BartRoof.PollOpened | base/dome/bart/bart.cpp:217-233 | state, board and result are those of the specification function: isOpened |
| Bart.BartRoof.PollClosed | base/dome/bart/bart.cpp:300-323 | state, board and result are those of the specification function: isClosed |
| Bart.BartRoof.HandleSockets | base/dome/bart/bart.cpp:360-379 | state, board and result are those of the specification function: the six sockets, one after the other |
| Dome.StepKeeps | base/dome/src/dome.cpp:130-398 | every call of the roof state machine, with any answer of the driver, keeps its invariant |
| Dome.NoCloseForgotten | base/dome/src/dome.cpp:130-342 | in every run: until closed is confirmed or an open or stop asked for, a close is being watched, has a retry pending, or EMERGENCY was logged after exactly three retries; a quiet close never displaces it |
| Dome.OpenRenewsRetries | base/dome/src/dome.cpp:130-159 | an open request clears the retry count if and only if it starts the motor |
| Dome.CloseGivenUpAtOnce | base/dome/src/dome.cpp:161-226 | so with the retries spent, a close after an open that found the roof opened is given up at its first failure |
| Dome.RetriesGetSpent | base/dome/src/dome.cpp:211-226 | a run that reaches such a state |
| Dome.OpeningBlocksTelescope | base/dome/src/dome.cpp:130-241 | exposures and telescope moves are blocked together, only while opening, and always then unless a stop was accepted; a stop lifts both |
| Dome.BlocksFollowThePhase | base/dome/src/dome.cpp:130-342 | in every run an opened roof blocks closing only, a closed one opening only, a moving one both |
| Dome.StepBlocks | base/dome/src/dome.cpp:130-342 | every call keeps that, and a wait for the mount, a stop and whatever moves nothing leave both bits as they were |
| Dome.AnswersTellThePhase | base/dome/src/dome.cpp:130-209 | a request succeeds if and only if the roof is then where it should be, on the way or waiting to go; never to opening in bad weather; retries pending are withdrawn |
| Dome.RefusedCloseIsReported | base/dome/src/dome.cpp:176-189 | in every run a close the driver refuses is reported as critical unless that was done in the last 300 s with no move started since, and is tried again |
| Dome.StopAnswers | base/dome/src/dome.cpp:228-241 | a stop withdraws the retries, keeps phase and device blocks, and fails exactly when the driver refuses |
| Dome.MovesEnd | base/dome/src/dome.cpp:254-342 | a move ends at the first negative answer; a close is confirmed only by switch and stopped motor, else retried until the third retry is spent, unless quiet and out of time |
| Dome.Dome.DomeOpenStart | base/dome/src/dome.cpp:130-159 | new state word, retry count, timers, log and result are those of the specification function: domeOpenStart |
| Dome.Dome.DomeCloseStart | base/dome/src/dome.cpp:161-209 | new state word, retry count, timers, log and result are those of the specification function: domeCloseStart with its retry timer and failure report |
| Dome.Dome.CloseDidFail | base/dome/src/dome.cpp:211-226 | new state word, retry count, timers, log and result are those of the specification function: closeFailed |
| Dome.Dome.DomeStop | base/dome/src/dome.cpp:228-241 | new state word, retry count, timers, log and result are those of the specification function: domeStop |
| Dome.Dome.CheckOpening | base/dome/src/dome.cpp:254-342 | new state word, retry count, timers, log and result are those of the specification function: checkOpening |
| BartSystem.MotorFollowsTheState | base/dome/bart/bart.cpp:163-449 | in every run of dome, driver, board and sockets, written singly or in rounds: opening with the motor on means direction off and an armed timeout, closing means direction on and one, unless the last stop failed; without an alarm the motor never reversed while running |
| BartSystem.SocketsSpareTheRoof | base/dome/bart/bart.cpp:360-379 | a whole round of socket writes leaves motor and direction alone |
| BartSystem.SocketsFollow | base/dome/bart/bart.cpp:360-379 | on a line that answers and delivers the sockets follow a round, and nothing else does |
| BartSystem.SocketFollows | base/dome/bart/bart.cpp:381-449 | or a single write |
| BartSystem.StopWithdrawsRetries | base/dome/src/dome.cpp:228-241 | this driver cannot stop: a stop only withdraws the retries |
| BartSystem.NoCloseForgotten | base/dome/bart/bart.cpp:495-520 | no ordinary close of this roof is forgotten, and the quiet re-close does nothing while one is pending |
| BartSystem.RunIsHeard | base/dome/src/dome.cpp:130-342 | every run of the roof is a run of the dome with the answers of this driver |
| BartSystem.ClosedQuietlyExactly | base/dome/bart/bart.cpp:495-520 | with a board that answers, a quiet close begins if and only if it is due, the roof should be closed, no ordinary close is failing, and it is seen open with its motor off |
| BartSystem.CloseRequestAbandonsMotor | base/dome/src/dome.cpp:161-209 | a close request leaves a running motor unwatched if and only if its probe finds the closed switch made |
| BartSystem.OpenRequestAbandonsMotor | base/dome/src/dome.cpp:130-159 | an open request does so if and only if its probe finds the open switch made or the opening overdue |
| BartSystem.PollNeverAbandonsMotor | base/dome/src/dome.cpp:254-342 | the poll of a move never does |
| BartSystem.RequestsDoAbandonTheMotor | base/dome/src/dome.cpp:130-209 | runs from a start of the daemon in which a close and an open request do |
| BartSystem.StepTimed | base/dome/bart/bart.cpp:186-336 | a step leaves a roof opening or closing without the timeout that ends the move if and only if a request probes the end switch in vain and the next reading finds it made, with the motor stopped or the move under way |
| BartSystem.MovesAreTimed | base/dome/bart/bart.cpp:186-336 | in every run without such a step the timeout is armed |
| BartSystem.TimeoutEndsTheMove | base/dome/src/dome.cpp:254-342 | once overdue it ends the move at the next check |
| BartSystem.NothingEndsTheMove | base/dome/src/dome.cpp:254-342 | without it no number of checks does, at whatever time, while the switch is not seen |
| BartSystem.CloseSeenLateNeverEnds | base/dome/bart/bart.cpp:244-336 | runs in which a close of a roof at rest comes to that |
| D50.StopMotorsEffect | base/dome/d50/d50.cpp:190-201 | success means both outputs verified off; failure raises exactly one alarm |
| D50.PowerUpEffect | base/dome/d50/d50.cpp:230-262 | success means the started output is on alone under a fresh deadline; otherwise nothing is on or the stop failed |
| D50.StartOpenEffect | base/dome/d50/d50.cpp:215-264 | success means opening alone; failure means off, alarm, or only looked |
| D50.StartCloseEffect | base/dome/d50/d50.cpp:304-411 | every answer of startClose: 0 only closing alone, 1 only for a mount known to move or stand outside, closing output raised only past a safe or ignored mount |
| D50.PollsRespectTheDeadlines | base/dome/d50/d50.cpp:266-282 | "opened" and "closed" need the switch and no motor the other way; "keep waiting" is never answered past the deadline |
| D50.EndsEffect | base/dome/d50/d50.cpp:284-302 | endOpen and endClose leave the outputs off or raised the alarm |
| D50.StopAllEffect | base/dome/d50/d50.cpp:459-464 | stop succeeds exactly when the outputs are verified off |
| D50.NeverBothOutputs | base/dome/d50/d50.cpp:190-576 | after a successful init, in every sequence of calls: both outputs were never on together, and an output that is on has its deadline armed unless the last stop failed |
| D50.ClosingNeedsSafeMount | base/dome/d50/d50.cpp:304-411 | the closing output rises only in a startClose whose mount is ignored or safe |
| D50.SafeMount | base/dome/d50/d50.cpp:484-538 | the mount counts as safe if and only if it reported within 10 s, rests and is inside |
| D50.MountStates | base/dome/d50/d50.cpp:484-538 | known in the way: heard from within 10 s and moving, or at rest outside |
| D50.ParksOnlyARestingMount | base/dome/d50/d50.cpp:340-363 | a close sends a park, dated now, if and only if it has to wait, the mount rests outside, and none was sent in the last 30 s |
| D50.LongWaitIsReported | base/dome/d50/d50.cpp:466-482 | a wait goes on while held up at least every 10 s, and is reported once, when it has lasted 90 s |
| D50.WaitEndsWithTheMountSafe | base/dome/d50/d50.cpp:304-372 | past the mount nothing is left of a wait; a close that fails before leaves it |
| D50.OpeningDeadlines | base/dome/d50/d50.cpp:215-264 | an opening started has 40 s and 2 s of dead time from its return, one found running keeps its deadline or gets 40 s; failure changes none |
| D50.ClosingDeadlines | base/dome/d50/d50.cpp:304-411 | the same for closing; one stopped for the mount loses its deadline |
| D50.EndsDisarm | base/dome/d50/d50.cpp:284-464 | ends and stop disarm; success is the switch seen afterwards |
| D50.PollAnswers | base/dome/d50/d50.cpp:266-436 | the polls answer end, deadline missed or wait, exactly |
| D50.HealthyOpen | base/dome/d50/d50.cpp:215-264 | on a line that answers and delivers the opening motor runs alone, after 2 s of rest if the other ran |
| D50.HealthyClose | base/dome/d50/d50.cpp:304-411 | likewise the closing motor, past a safe or ignored mount |
| D50.HealthyHold | base/dome/d50/d50.cpp:330-363 | with the mount in the way a closing roof is stopped and waits |
| D50.HealthyEnds | base/dome/d50/d50.cpp:284-464 | ends and stop switch both motors off |
| D50.HealthyInit | base/dome/d50/d50.cpp:540-576 | so does a start of the daemon |
| D50.D50Roof.TryToHalt | base/dome/d50/d50.cpp:190-201 | state, board and result are those of the specification function: one attempt to switch both outputs off |
| D50.D50Roof.Halt | base/dome/d50/d50.cpp:190-201 | state, board and result are those of the specification function: stopMotors |
| D50.D50Roof.Run | base/dome/d50/d50.cpp:203-262 | state, board and result are those of the specification function: one motor on, checked by onlyMotor |
| D50.D50Roof.Rest | base/dome/d50/d50.cpp:215-240 | state, board and result are those of the specification function: the pause before a reversal |
| D50.D50Roof.Open | base/dome/d50/d50.cpp:215-264 | state, board and result are those of the specification function: startOpen |
| D50.D50Roof.MountIsSafe | base/dome/d50/d50.cpp:484-538 | state, board and result are those of the specification function: getMountState |
| D50.D50Roof.NoteWaiting | base/dome/d50/d50.cpp:466-482 | state, board and result are those of the specification function: waitingForMount |
| D50.D50Roof.Park | base/dome/d50/d50.cpp:340-411 | state, board and result are those of the specification function: the park request of a waiting close |
| D50.D50Roof.MountInTheWay | base/dome/d50/d50.cpp:304-411 | state, board and result are those of the specification function: a close that has to wait |
| D50.D50Roof.Close | base/dome/d50/d50.cpp:304-411 | state, board and result are those of the specification function: startClose |
| D50.D50Roof.IsOpen | base/dome/d50/d50.cpp:266-282 | state, board and result are those of the specification function: isOpened |
| D50.D50Roof.IsShut | base/dome/d50/d50.cpp:413-436 | state, board and result are those of the specification function: isClosed |
| D50.D50Roof.FinishOpen | base/dome/d50/d50.cpp:284-302 | state, board and result are those of the specification function: endOpen |
| D50.D50Roof.FinishClose | base/dome/d50/d50.cpp:438-455 | state, board and result are those of the specification function: endClose |
| D50.D50Roof.Stop | base/dome/d50/d50.cpp:459-464 | state, board and result are those of the specification function: stop |
| D50.D50Roof.Start | base/dome/d50/d50.cpp:540-576 | state, board and result are those of the specification function: init |
| D50System.RoofStaysSafe | base/dome/d50/d50.cpp:190-576 | in every run of dome, driver and board: outputs never on together, deadlines armed, no close forgotten |
| D50System.RunIsHeard | base/dome/src/dome.cpp:130-342 | every run of the roof is a run of the dome with the answers of this driver |
| D50System.CloseRequestAbandonsMotor | base/dome/d50/d50.cpp:304-411 | a close request leaves a running motor unwatched in exactly two cases: found closed by the probe, or opening while the mount is in the way |
| D50System.OpeningRoofIsLeft | base/dome/d50/d50.cpp:304-411 | an opening roof is left running by a close that waits for the mount |
| D50System.OpenRequestAbandonsMotor | base/dome/src/dome.cpp:130-159 | an open request does so exactly when its probe finds the roof opened |
| D50System.PollAndStopNeverAbandonMotor | base/dome/src/dome.cpp:228-342 | poll and stop never do |
| D50System.RequestsDoAbandonTheMotor | base/dome/src/dome.cpp:130-209 | runs from a start of the daemon in which a close and an open request do |
| D50System.WaitingCloseDoesAbandonTheOpening | base/dome/d50/d50.cpp:304-411 | and one in which a close that waits for a moving mount does |
| Perek2m.CommandsInOrder | base/dome/perek2m/perek2m.cpp:263-599 | in every run with any answers: nothing sent in read-only mode; covers open only after oil was seen on in this sequence and the telescope ready or slewing; telescope off only when covers shut, dome home and parked are seen together; oil off only after that and telescope OFF |
| Perek2m.PollsEndTheSequence | base/dome/perek2m/perek2m.cpp:373-599 | a poll keeps waiting exactly while its sequence goes on, never past the timeout or without connection; success needs the covers open, or the oil off, or all home with power kept |
| Perek2m.OpenStepKeeps | base/dome/perek2m/perek2m.cpp:419-476 | each opening step advances by at most one and keeps the order |
| Perek2m.CloseStepKeeps | base/dome/perek2m/perek2m.cpp:555-599 | each closing step advances by at most one and keeps the order |
| Perek2m.StartCloseKeeps | base/dome/perek2m/perek2m.cpp:483-527 | the commands sent at once by a close keep the order |
| Perek2m.EveningStep | base/dome/perek2m/perek2m.cpp:419-476 | each step waits for oil, telescope or covers, then sends exactly the commands still missing, in order, until one is refused, and goes on, ends or fails accordingly |
| Perek2m.MorningStep | base/dome/perek2m/perek2m.cpp:555-599 | each step waits for all home, telescope off or oil off, then sends what is still on, and goes on, ends or fails |
| Perek2m.CloseSendsCovers | base/dome/perek2m/perek2m.cpp:496-502 | a close shuts three covers and halts the dome whatever is refused |
| Perek2m.CloseTurnsDome | base/dome/perek2m/perek2m.cpp:503-508 | then turns it home |
| Perek2m.CloseParksTelescope | base/dome/perek2m/perek2m.cpp:510-519 | and parks a telescope that is on, whose slew it aborts |
| Perek2m.SendAllSends | base/dome/perek2m/perek2m.cpp:263-278 | a list of commands goes out up to the first refused, none in read-only mode |
| Perek2m.RequestsBegin | base/dome/perek2m/perek2m.cpp:381-527 | a request begins its sequence if and only if it may send and is connected |
| Perek2m.StopHalts | base/dome/perek2m/perek2m.cpp:606-615 | a stop ends the sequence and halts the dome |
| Perek2m.PollsTell | base/dome/perek2m/perek2m.cpp:401-554 | outside its sequence a poll judges by covers, telescope and oil; inside, one without connection or out of time ends it |
| Perek2m.DomeStoppedMeans | base/dome/perek2m/perek2m.cpp:362-371 | the dome stands within a degree of home, whichever way round |
| Perek2m.RangeDegreesIsSame | base/dome/perek2m/perek2m.cpp:503-505 | the azimuth sent is the same direction, in [0, 360) |
| Perek2m.AllHomeMeans | base/dome/perek2m/perek2m.cpp:353-371 | covers shut, dome home, telescope off or stopped within 0.05 of its park position |
| Perek2m.Perek2mDome.TcsCommand | base/dome/perek2m/perek2m.cpp:263-278 | fields, command trace and result are those of the specification function: tcsCommand |
| Perek2m.Perek2mDome.GetInfo | base/dome/perek2m/perek2m.cpp:280-315 | fields, command trace and result are those of the specification function: the part of info that renews the snapshot |
| Perek2m.Perek2mDome.BeginSequence | base/dome/perek2m/perek2m.cpp:394-398 | fields, command trace and result are those of the specification function: a sequence begun |
| Perek2m.Perek2mDome.Open | base/dome/perek2m/perek2m.cpp:381-399 | fields, command trace and result are those of the specification function: startOpen |
| Perek2m.Perek2mDome.PollOpen | base/dome/perek2m/perek2m.cpp:401-418 | fields, command trace and result are those of the specification function: isOpened |
| Perek2m.Perek2mDome.NextOpenStep | base/dome/perek2m/perek2m.cpp:419-476 | fields, command trace and result are those of the specification function: the steps of opening |
| Perek2m.Perek2mDome.AskCovers | base/dome/perek2m/perek2m.cpp:447-456 | fields, command trace and result are those of the specification function: the three covers, until one is refused |
| Perek2m.Perek2mDome.Close | base/dome/perek2m/perek2m.cpp:483-527 | fields, command trace and result are those of the specification function: startClose |
| Perek2m.Perek2mDome.TurnDomeHome | base/dome/perek2m/perek2m.cpp:503-508 | fields, command trace and result are those of the specification function: the dome azimuth |
| Perek2m.Perek2mDome.ParkTelescope | base/dome/perek2m/perek2m.cpp:510-519 | fields, command trace and result are those of the specification function: stop and park |
| Perek2m.Perek2mDome.PollClose | base/dome/perek2m/perek2m.cpp:529-554 | fields, command trace and result are those of the specification function: isClosed |
| Perek2m.Perek2mDome.NextCloseStep | base/dome/perek2m/perek2m.cpp:555-599 | fields, command trace and result are those of the specification function: the steps of closing |
| Perek2m.Perek2mDome.Halt | base/dome/perek2m/perek2m.cpp:606-615 | fields, command trace and result are those of the specification function: stop |
| Centrald.FirstBlocking | base/centrald/src/centrald.cpp:1077-1104 | all devices before the index are present and do not block opening, the one at it is missing or does |
| Centrald.LastClosable | base/centrald/src/centrald.cpp:1106-1139 | the device at the index is present, not failed and blocks closing, and none after it is; -1 when there is none |
| Centrald.ClosingIsOrderedAndBounded | base/centrald/src/centrald.cpp:821-1139 | in every run with any sequence: every command kept the order, every timeout added a failed device of its own, at most as many as the sequence is long before the list is cleared, fewer while closing |
| Centrald.ClosingEndsWhenDone | base/centrald/src/centrald.cpp:1106-1139 | a closing ends if and only if every device is missing, failed or not blocking |
| Centrald.OpeningTellsWhoseTurnItIs | base/centrald/src/centrald.cpp:1077-1104 | a command for position k is sent if and only if all before k are present and open and the one at k is present and waits; else the opening ends and nothing is sent |
| Centrald.ClosingTellsTheLast | base/centrald/src/centrald.cpp:1106-1139 | a command for position k is sent, with a timeout when it was not told last, if and only if it is the last that can be closed; else the closing ends and failures are forgotten |
| Centrald.WhoseTurnAfterRequests | base/centrald/src/centrald.cpp:996-1075 | requests begin a sequence, a change among the devices carries it on |
| Centrald.OnlyStaleDeviceLeavesClosingUnguarded | base/centrald/src/centrald.cpp:821-1139 | a waiting closing has a timeout pending, except exactly after a close request whose device is still open_close_last while no timeout is pending |
| Centrald.ReversedOpeningIsUnguarded | base/centrald/src/centrald.cpp:1065-1139 | a run in which that happens |
| Centrald.TimeoutsKeepTheDeadline | base/centrald/src/centrald.cpp:821-1139 | in every run the next timeout is due no later than the deadline shown for the last device |
| Centrald.FullTimeExactly | base/centrald/src/centrald.cpp:821-1139 | in every run: a device told to close, for the first time or again, under a timeout is, if still waited for then, given up by the next timeout; after exactly 180 s if and only if every timeout pending before was set at that moment, earlier otherwise |
| Centrald.LeftoverTimeoutCutsShort | base/centrald/src/centrald.cpp:821-835 | a run in which a timeout left from an earlier device gives up the next after 80 s |
| Centrald.ToldAgainIsCutShort | base/centrald/src/centrald.cpp:1065-1139 | a run in which a device told again keeps its older timeout, due 9 s later |
| Centrald.FailuresArePassedOver | base/centrald/src/centrald.cpp:1071-1139 | a close request tells the last present device that blocks closing if and only if that one is not among the failures |
| Centrald.InterruptedClosingKeepsFailures | base/centrald/src/centrald.cpp:1065-1139 | a run in which an opening in between keeps the failures, so that the next close passes over that device |
| Centrald.NamesAreIndependent | base/centrald/src/centrald.cpp:866-925 | the erase/push loop treats every name on its own, whatever names the connections share |
| Centrald.LoopLeavesTheOffenders | base/centrald/src/centrald.cpp:866-925 | with distinct names the loop leaves exactly the offending names, once each; good weather if and only if every required device is connected and good and no other connection reports bad |
| Centrald.Coordinator.UpdateOpenClose | base/centrald/src/centrald.cpp:1141-1153 | fields, timers, log and result are those of the specification function: updateOpenClose |
| Centrald.Coordinator.OpenNext | base/centrald/src/centrald.cpp:1077-1104 | fields, timers, log and result are those of the specification function: doOpen |
| Centrald.Coordinator.CloseNext | base/centrald/src/centrald.cpp:1106-1139 | fields, timers, log and result are those of the specification function: doClose, walked from the end |
| Centrald.Coordinator.Open | base/centrald/src/centrald.cpp:1065-1069 | fields, timers, log and result are those of the specification function: startOpen |
| Centrald.Coordinator.Close | base/centrald/src/centrald.cpp:1071-1075 | fields, timers, log and result are those of the specification function: startClose |
| Centrald.Coordinator.DevicesChanged | base/centrald/src/centrald.cpp:996-1009 | fields, timers, log and result are those of the specification function: openCloseChanged |
| Centrald.Coordinator.PostEvent | base/centrald/src/centrald.cpp:821-835 | fields, timers, log and result are those of the specification function: the close timeout |
| Centrald.Coordinator.Collect | base/centrald/src/centrald.cpp:866-898 | the loop over the connections computes the offending names |
| Centrald.Coordinator.WeatherChanged | base/centrald/src/centrald.cpp:866-925 | verdict and list from the offending names; the reason shown is the first heard since the weather was good, cleared when it is |
| Centrald.Coordinator.StopChanged | base/centrald/src/centrald.cpp:942-980 | telescope stopped exactly when some name offends |
| Camera.ExposuresExclude | base/camd/src/camd.cpp:177-2041 | in every run BOP_TEL_MOVE implies exposing, and until a careless step no start is asked for during an exposure nor, without frame transfer, during a readout, although queued values and blocking masks re-enter the machine |
| Camera.CarelessExactly | base/camd/src/camd.cpp:177-2292 | the condition, on the state before, is exact: from every tracked state a command, poll or mask loses sight of the hardware if and only if it is careless |
| Camera.StepKeeps | base/camd/src/camd.cpp:680-2292 | every command, poll and mask keeps that |
| Camera.AbortLosesHardware | base/camd/src/camd.cpp:722-768 | stopexpo and killAll lose the hardware if and only if a readout is running without frame transfer or the abort of an exposure fails |
| Camera.ExposureDuringAbandonedReadout | base/camd/src/camd.cpp:2277-2292 | the next exposure is then asked of a chip still being read |
| Camera.PollLosesHardware | base/camd/src/camd.cpp:1438-1493 | a poll loses it if and only if a failed exposure cannot be aborted, frees a queued value while an exposure waits for a gone block that the driver will start, and one more waits with nothing to block it, or a partial exposure ends that starts another; all told from the state before the poll |
| Camera.FailureExactly | base/camd/src/camd.cpp:1481-1489 | whether a failed exposure starts the next one, which blocks are left and whether another waits is told by queue, blocks and answers before it |
| Camera.PartialEnd | base/camd/src/camd.cpp:1454-1457 | the same for the end of a partial exposure |
| Camera.FailedAbortDoesClash | base/camd/src/camd.cpp:1481-1489 | a run, careful until then, in which the abort of a failed exposure does |
| Camera.QuietMask | base/kernel/src/device.cpp:1007-1064 | while the queue is empty, the chip busy or no block waited for, a change of state starts nothing |
| Camera.MaskKeeps | base/kernel/src/device.cpp:1007-1064 | a change of state and all it re-enters keep the invariant |
| Camera.MaskStills | base/kernel/src/device.cpp:1007-1064 | after any change of state nothing left in the queue could start an exposure |
| Camera.MaskHonest | base/kernel/src/device.cpp:1007-1064 | and none is shown that the hardware does not make |
| Camera.SetFullBopKeeps | base/camd/src/camd.cpp:2369-2392 | so does a new blocking mask |
| Camera.CamExposeKeeps | base/camd/src/camd.cpp:1907-1957 | so does an exposure asked for by a client or from the queue |
| Camera.CheckExposuresKeeps | base/camd/src/camd.cpp:1438-1493 | so does every reported end of an exposure, but for the careless ones |
| Camera.CheckReadoutsKeeps | base/camd/src/camd.cpp:1495-1514 | so does every end of a readout |
| CameraExposures.StepIsHonest | base/camd/src/camd.cpp:177-2292 | an exposure is shown that the hardware does not make if and only if, with frame transfer, the driver refuses the next start as a readout begins, or a failed exposure makes the queue start the next one, which the abort then ends, both told from the state before; no other command, poll or mask does it |
| CameraExposures.ShownExposuresAreMade | base/camd/src/camd.cpp:177-2292 | in every run without these two the exposure shown is made |
| CameraExposures.RefusedStartIsShown | base/camd/src/camd.cpp:1469-1480 | a run that reaches the first |
| CameraExposures.AbortedStartIsShown | base/camd/src/camd.cpp:1481-1489 | a run that reaches the second |
| CameraExposures.SettledOpticsKeepTheCount | base/camd/src/camd.cpp:712-720 | when the optics settle, exposures due and exposures asked of the driver add up, but for one lost exactly when the camera exits, values are queued with no client free to wait, or two are queued and nothing is in the way |
| CameraExposures.SettledOpticsDoLose | base/camd/src/camd.cpp:712-720 | a run in which one is lost |
| CameraExposures.ReadoutTellsTheImage | base/camd/src/camd.cpp:1495-1514 | with nothing waiting a final answer shows an image and no error if and only if it is -2, else a hardware error and the image flag as it was |
| CameraExposures.ReadoutTellsTheImageBeside | base/camd/src/camd.cpp:1495-1514 | with the next exposure begun and more waiting both are shown beside it |
| CameraExposures.StartClearsTheImage | base/camd/src/camd.cpp:1869-1888 | a start clears image and error and tells whether the exposure has an image; a refused one lets the telescope move |
| CameraExposures.UnreadableImageFails | base/camd/src/camd.cpp:1990-2041 | an image that cannot be sent ends its readout at once with an error |
| CameraExposures.DriverAnswers | base/camd/src/camd.cpp:1869-1888 | the hardware starts exactly when the driver answers 0 or 1; a start asked of a busy one is a clash |
| CameraExposures.RequestsAreRefused | base/camd/src/camd.cpp:1907-1937 | a camera that exits refuses a request, one with values queued refuses it until they are gone, and remembers |
| CameraExposures.PlainExpose | base/camd/src/camd.cpp:1912-1957 | with no value queued a request of a busy camera is queued, one that something blocks is held back and shown as about to expose when only a trigger does, and any other is answered by the driver and shown exactly when it starts |
| CameraExposures.PlainUnreadEnds | base/camd/src/camd.cpp:1438-1488 | without a client, or with no readout asked for, the end of an exposure empties the queue and leaves all quiet |
| CameraExposures.PlainReadout | base/camd/src/camd.cpp:1438-1480 | with a client the readout begins, and any error is wiped from the state, also that of an image that could not be sent |
| CameraExposures.PlainFailure | base/camd/src/camd.cpp:1481-1489 | a failed exposure is a hardware error; what waits is dropped if the abort works and tried if it fails |
| CameraExposures.PlainStops | base/camd/src/camd.cpp:722-768 | stopping leaves the chip quiet and killed, with an error if the driver refused, and the queue empty unless it did |
| CameraExposures.EmptyQueueIsNoticed | base/camd/src/camd.cpp:680-706 | when the last queued value is gone, the exposure that waited for it is queued once more if a client is there |
| CameraExposures.ReleasedExactly | base/kernel/src/device.cpp:1007-1042 | a change of state keeps, of each queued value, all or none: all while any state it waits for lasts |
| Camera.CameraDevice.MaskState | base/kernel/src/device.cpp:1059-1064 | all fields are those of the specification function: maskState |
| Camera.CameraDevice.ApplyQueued | base/kernel/src/device.cpp:1007-1042 | all fields are those of the specification function: the loop that erases applied values in place |
| Camera.CameraDevice.CheckQueChanges | base/camd/src/camd.cpp:680-710 | all fields are those of the specification function: checkQueChanges |
| Camera.CameraDevice.NewBop | base/camd/src/camd.cpp:2369-2392 | all fields are those of the specification function: setFullBopState |
| Camera.CameraDevice.StartDriver | base/camd/src/camd.cpp:1869-1870 | all fields are those of the specification function: the startExposure hook |
| Camera.CameraDevice.StartWithoutCheck | base/camd/src/camd.cpp:1799-1905 | all fields are those of the specification function: camStartExposureWithoutCheck |
| Camera.CameraDevice.Start | base/camd/src/camd.cpp:1758-1797 | all fields are those of the specification function: camStartExposure |
| Camera.CameraDevice.ExposeFor | base/camd/src/camd.cpp:1907-1957 | all fields are those of the specification function: camExpose |
| Camera.CameraDevice.CheckQueuedExposures | base/camd/src/camd.cpp:712-720 | all fields are those of the specification function: checkQueuedExposures |
| Camera.CameraDevice.StopDriver | base/camd/src/camd.cpp:208-213 | all fields are those of the specification function: the stopExposure hook |
| Camera.CameraDevice.Readout | base/camd/src/camd.cpp:1990-2041 | all fields are those of the specification function: camReadout |
| Camera.CameraDevice.End | base/camd/src/camd.cpp:177-206 | all fields are those of the specification function: endExposure |
| Camera.CameraDevice.Finish | base/camd/src/camd.cpp:1473-1475 | all fields are those of the specification function: the state after an exposure |
| Camera.CameraDevice.EndUnread | base/camd/src/camd.cpp:1458-1464 | all fields are those of the specification function: an exposure whose readout was not asked for |
| Camera.CameraDevice.FailExposure | base/camd/src/camd.cpp:1481-1489 | all fields are those of the specification function: a failed exposure |
| Camera.CameraDevice.PollExposing | base/camd/src/camd.cpp:1438-1493 | all fields are those of the specification function: checkExposures |
| Camera.CameraDevice.PollReading | base/camd/src/camd.cpp:1495-1514 | all fields are those of the specification function: checkReadouts and endReadout |
| Camera.CameraDevice.StopExposing | base/camd/src/camd.cpp:2277-2292 | all fields are those of the specification function: stopexpo |
| Camera.CameraDevice.KillEverything | base/camd/src/camd.cpp:722-768 | all fields are those of the specification function: killAll |
| ReadoutStatistics.ChunksDoNotMatter | base/camd/src/camd.cpp:1037-1109 | however an image is split into chunks, everything shown at the end equals one pass |
| ReadoutStatistics.TwoChunksAreOne | base/camd/src/camd.cpp:1037-1109 | two chunks in a row are as good as one |
| ReadoutStatistics.ImageStatistics | base/camd/include/camd.h:1252-1315 | sum and average are exact, the extremes bound the image and are reached, the sum lies between as many times each, the mode is the smallest most frequent value of 16-bit unsigned data |
| ReadoutStatistics.TallyCounts | base/camd/include/camd.h:1296-1306 | the histogram counts each value modulo 2^32 |
| ReadoutStatistics.MostFrequent | base/camd/src/camd.cpp:1078-1089 | the scan finds the smallest of the most frequent values, nothing when all counts are zero |
| ReadoutStatistics.HistogramFollowsTheExposure | base/camd/src/camd.cpp:177-363 | in any run of calls sums belong to the data since the last first line, mode and histogram to those since the last exposure ended |
| ReadoutStatistics.ModeLeavesOut | base/camd/src/camd.cpp:177-363 | a run in which the mode shown is not that of the image |
| ReadoutStatistics.OffCountsPixels | base/camd/src/camd.cpp:1037-1109 | with statistics off only pixels are counted |
| ReadoutStatistics.Readout.PrepareHistogram | base/camd/include/camd.h:1268-1294 | values and histogram are those of the specification function: histogram kept, begun or dropped |
| ReadoutStatistics.Readout.Walk | base/camd/include/camd.h:1296-1306 | values and histogram are those of the specification function: the walk over the buffer: sum, extremes, and the counts in place |
| ReadoutStatistics.Readout.UpdateStatistics | base/camd/include/camd.h:1252-1315 | values and histogram are those of the specification function: updateStatistics |
| ReadoutStatistics.Readout.FindMode | base/camd/src/camd.cpp:1076-1096 | values and histogram are those of the specification function: the scan for the mode |
| ReadoutStatistics.Readout.SendReadoutData | base/camd/src/camd.cpp:1037-1109 | values and histogram are those of the specification function: sendReadoutData |
| ReadoutStatistics.Readout.SendFirstLine | base/camd/src/camd.cpp:353-363 | values and histogram are those of the specification function: the reset of the values |
| ReadoutStatistics.Readout.ForgetHistogram | base/camd/src/camd.cpp:177-180 | values and histogram are those of the specification function: the reset of the histogram |
| Cooler.RampsAreOrderly | base/camd/src/cooler.cpp:65-183 | in every run at most one ramp event is in flight, each setpoint continues the one before unless the cooler came on from off, lies towards the goal and at most a step away, the cooler goes off only with cooling off right after the off setpoint |
| Cooler.StableMeansWithin | base/camd/src/cooler.cpp:164-183 | shown as stable, every check of the last 120 s found cooling on, TETAR at CCD_SET and the chip within tolerance |
| Cooler.StableExactly | base/camd/src/cooler.cpp:164-183 | the flag is shown if and only if the unbroken row of checks within spans 120 s |
| Cooler.WithinMeans | base/camd/src/cooler.cpp:164-170 | within: cooling, TETAR at CCD_SET, the chip no further from it than the tolerance |
| Cooler.TargetIsTaken | base/camd/src/cooler.cpp:65-72 | the wanted setpoint is taken over, and a cooler that is on ramps to it |
| Cooler.SwitchDoes | base/camd/src/cooler.cpp:74-100 | on to its setpoint or that of the night and not without either, from off starting at the chip; off by a ramp |
| Cooler.StepIsTheRate | base/camd/src/cooler.cpp:131-136 | the step is the rate for one minute, none without a positive rate |
| Cooler.RampWaits | base/camd/src/cooler.cpp:109-130 | a busy camera is tried again in 5 s, one without temperature in 10 s, one without goal not; else the next setpoint is sent |
| Cooler.RampEnds | base/camd/src/cooler.cpp:109-162 | with settings left alone and a free camera a ramp takes exactly max(1, ceil(distance / step)) steps, and ends with the event gone, the goal reached and, cooling off, the cooler off |
| Cooler.NextIsBounded | base/camd/src/cooler.cpp:137-143 | one setpoint lies within a step, between the old one and the goal |
| Cooler.CoolerDevice.Target | base/camd/src/cooler.cpp:65-72 | fields, timers and log are those of the specification function: setTarget |
| Cooler.CoolerDevice.Switch | base/camd/src/cooler.cpp:74-100 | fields, timers and log are those of the specification function: switchCooling |
| Cooler.CoolerDevice.BeginRamp | base/camd/src/cooler.cpp:102-107 | fields, timers and log are those of the specification function: startRamp |
| Cooler.CoolerDevice.StepRamp | base/camd/src/cooler.cpp:109-162 | fields, timers and log are those of the specification function: rampStep |
| Cooler.CoolerDevice.MoveSetPoint | base/camd/src/cooler.cpp:137-160 | fields, timers and log are those of the specification function: one setpoint and what follows |
| Cooler.CoolerDevice.Check | base/camd/src/cooler.cpp:164-183 | fields, timers and log are those of the specification function: checkStable |
| V4lStack.PixelIsMean | base/camd/v4l/v4l.cpp:644-709 | each pixel is the rounded mean of all samples of its clipped block over all frames, scaled by 65535/255, within 16 bits; a block beside the sensor is black |
| V4lStack.ImageStandsUpright | base/camd/v4l/v4l.cpp:499-506 | of a frame delivered upside down with luma and chroma in turn, the sample of a pixel is its luma in the upright image |
| V4lStack.StackThenBin | base/camd/v4l/v4l.cpp:457-709 | stacking and then binning adds up the same samples while 32 bits suffice |
| V4lStack.CountIsArea | base/camd/v4l/v4l.cpp:670-691 | the count is the area of the block that lies on the sensor |
| V4lStack.BlockIsBounded | base/camd/v4l/v4l.cpp:670-691 | the sum of a block never exceeds 255 for each sample, even after the accumulator wrapped |
| V4lStack.V4l.StartExposure | base/camd/v4l/v4l.cpp:587-605 | the accumulator starts from nothing |
| V4lStack.V4l.AddRow | base/camd/v4l/v4l.cpp:499-506 | one row added in place, from the opposite row of the frame |
| V4lStack.V4l.AccumulateFrame | base/camd/v4l/v4l.cpp:457-516 | a frame is added to the stack, upside down |
| V4lStack.V4l.SumBlock | base/camd/v4l/v4l.cpp:670-691 | sum and count of a clipped block |
| V4lStack.V4l.DoReadout | base/camd/v4l/v4l.cpp:644-709 | every output pixel is that of its block |
| ExposureTime.ExptimeReaches | python/rts2/snrexp.py:158-169 | exptime_for is the one positive time that meets the ratio exactly; every longer one and no shorter one reaches it |
| ExposureTime.LongerIsBetter | python/rts2/snrexp.py:158-161 | the ratio grows strictly with the time |
| ExposureTime.MoreIsBetter | python/rts2/snrexp.py:327-333 | and with the number of sub-exposures |
| ExposureTime.Bisect | python/rts2/snrexp.py:313-319 | 60 halvings leave a time within the limit and one beyond it, 900/2^60 apart |
| ExposureTime.MaxTime | python/rts2/snrexp.py:303-322 | neither limit is exceeded at the answer and the named one is within 900/2^60 of it |
| ExposureTime.MaxTimeSeparates | python/rts2/snrexp.py:303-322 | every time up to the answer is unsaturated, every time from 900/2^60 beyond it saturates |
| ExposureTime.RoundUp | python/rts2/snrexp.py:172-178 | the least grid time at or above t up to the slack, within the limits, or the longest allowed |
| ExposureTime.RoundDown | python/rts2/snrexp.py:181-187 | the largest grid time at or below t up to the slack, or the smallest of the grid |
| ExposureTime.CountFor | python/rts2/snrexp.py:730-739 | the least count that reaches the ratio within the fit, or the largest that fits |
| ExposureTime.Accumulation | python/rts2/snrexp.py:720-744 | no candidate with its own count has a smaller key; the smallest step once when none is below saturation |
| ExposureTime.AccumulationIsOptimal | python/rts2/snrexp.py:720-744 | against every step and every count that fits: if any reaches the ratio the result does, with least total time, then least count, and no count to spare; otherwise none has a higher ratio |
| ExposureTime.PlanEntry | python/rts2/snrexp.py:747-780 | an entry is the wanted time, or its cut |
| ExposureTime.UncutEntryReaches | python/rts2/snrexp.py:747-780 | an uncut entry reaches the ratio up to the 1e-6 s slack if tmax allows the time needed, and does not if it is shorter |
| ExposureTime.LastSubExposureDecides | python/rts2/snrexp.py:299-322 | all sub-exposures of an accumulation are unsaturated if and only if the last one is; under a steady sky, if and only if the first is |
| ExposureTime.PlannedIsUnsaturated | python/rts2/snrexp.py:747-780 | every sub-exposure planned is unsaturated up to the slack, but for a smallest step that is too long, times beyond 900 s, and a rising sky in which the last one saturates |
| ExposureTime.FirstIsUnsaturated | python/rts2/snrexp.py:747-780 | the first one is but for the former two, and a limit exceeded by more than the bracket does saturate |
| ExposureTime.RisingTwilightSaturates | python/rts2/snrexp.py:720-780 | a twilight in which every plan of 2000 s begins unsaturated and ends saturated |
| ExposureTime.BeyondTheGridMaySaturate | python/rts2/snrexp.py:303-322 | an entry of 1800 s that does saturate |
| TargetIds.NewTargetId | db/db/src/target.ec:1844-1893 | the smallest free id above the given one in 8000 to 49999, or none |
| TargetIds.PeerAnswers | web/static/target.js:541-560 | an allocating site answers its least free id from the candidate on, one that looks up agrees exactly when the candidate does not exist there, a silent one always |
| TargetIds.RoundPassesNothing | web/static/target.js:541-566 | in an unfinished round the candidate grows strictly and no id free on both is passed over |
| TargetIds.StartNewTarget | web/static/target.js:511-574 | a reserved id is free here, the least free on both, and taken there if and only if that site was silent in the round that agreed and holds it; failure means no common free id, or 50 ids free here but taken there |
| Sexagesimal.SplitAndCarry | web/static/target.js:134-146 | floors, rounding and carry give the parts of the value rounded once; minutes stay below 60 and seconds below 60 after the carry |
| Sexagesimal.DecToSexagesimal | web/static/target.js:130-152 | the text is that of the value rounded once to the last decimal |
| Sexagesimal.ParsePrinted | web/static/target.js:160-181 | parsing a printed text gives exactly the printed units with the printed sign |
| Sexagesimal.RoundTrip | web/static/target.js:130-181 | so the coordinate comes back within half a unit of the last decimal, times 15 for a right ascension |
| Sexagesimal.ReprintIsSame | web/static/target.js:130-181 | printing the parsed value gives the same text if and only if it was not a negative coordinate rounded to zero |
| Sexagesimal.SexagesimalTyped | web/static/target.js:154-175 | hours, minutes and seconds typed with any blanks, separators and decimal mark give their value, times 15 for a right ascension, with the sign typed |
| Sexagesimal.DecimalTyped | web/static/target.js:154-181 | a plain decimal is degrees, for a right ascension too |
| Sexagesimal.NothingTyped | web/static/target.js:160-163 | blanks alone, or a text that begins with neither digit, point, comma nor sign, give nothing |
| Sexagesimal.HourIsFifteenDegrees | web/static/target.js:154-181 | an hour of right ascension is fifteen degrees, both printed and parsed |

## Left out

- Logging, XML-RPC, sockets and serial timing: only results and logged commands remain.
- Byte-level half-written port commands: a port write is applied whole or lost. Writes to port A of the board are not modelled, nothing here sends them.
- The clock is in whole seconds for the roofs, the coordinator and the cooler.
- Numbers: doubles and floats are exact reals or integers; rounding of binary arithmetic is not modelled.
- Timers: only their number and order, not the delay between due time and delivery; the retry timer of the dome is counted.
- Dome: weather and master states enter only as the requests they cause (base/dome/src/dome.cpp `closeDomeWeather`), and state names only as one word.
- Bart: the north switches, the info values and the calm period that makes a quiet re-close due, which is an input.
- D50: info values and message texts.
- Perek2m: manual `setValue` cover commands, the progress texts, and `info` beyond renewing the snapshot.
- Centrald: `open_sequence` is writable; it is held fixed during a run. Device discovery, standby switching and `statusInfo`.
- Ford: in the exchange with the board a read fails or is true; how a reply gets misread (MisreadExactly) and what two such readings do (OnlyTwinMisreadsSwitchForeignPins) are proved apart from it.
- Camera: shift-store exposures and their state, image headers, data connections, FITS and shared memory transfer, filters and focusing beyond "optics moving", and what a queued value itself sets.
- ReadoutStatistics: floating-point pixel formats, centre box and SEP; a buffer is a sequence of whole pixels.
- HistogramFollowsTheExposure: holds for one pixel format and one statistics setting throughout the run, because a change of either drops or restarts the histogram.
- V4lStack: device I/O and the choice of frame rate; buffers are addressed by row and column instead of flat offsets.
- PixelIsMean: requires fewer than 16 843 010 frames, from which on the 32-bit accumulator may wrap; BlockIsBounded shows that a pixel stays within 16 bits even then.
- ExposureTime: square root and power of ten are known by their laws only, the erf fraction of the central pixel is an input; sky, Moon, twilight and extinction formulas, and the tick of a plan.
- ParseCoordinate: plain decimal input is read without exponents; white space is space, tab and line ends only.
- TargetIds: ids taken while the search is going on; both databases are fixed meanwhile.
- Vendor camera and filter wheel drivers, dummy devices and option parsing: wrappers over libraries.
- Other web pages, script helpers, GRB queries and the ds9 hook: user interface and I/O.
