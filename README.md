# EV3 catapult robot: mission control core

This project models the control logic of `main.py`, a pybricks program for a LEGO
EV3 robot. The robot waits on a green start marker, drives off it, follows a line
by reflectance, fires a spring catapult and follows the line back. Every hardware
call becomes either a recorded command or a value taken from a finite sequence of
sensor readings.

The model has five modules, one per file:

- `Ev3` (`ev3.dfy`) holds the shared vocabulary: sensor colours, catapult motor
  primitives and drive-base commands.
- `CatapultControl` (`catapult.dfy`) holds the `Catapult` class and the `Display`
  class. `Catapult` has a `tension` field and a ghost trace of motor commands.
  `Display` has the two tension buttons. The module also holds a pure account of
  tension updates, and an interpretation of the motor trace as latch and
  tension-motor positions.
- `LineFollower` (`line_follower.dfy`) holds the proportional law
  `1.2 * (reflection - 47)`, negated when going backwards.
- `Mission` (`mission.dfy`) holds the `Player` class and its shared fields
  `driveSpeed` and `turnRate`. The sensor streams are fields that each read
  consumes. The routines are modelled as follows:
  - `init_routine`, `start_routine` and `run` are generators. Each is a pure
    "resume" function (`InitResume`, `StartResume`, `RunResume`) giving the effect
    of one `next()` call. A `Player` method (`InitRoutine`, `StartRoutine`, `Run`)
    is proved to have that effect.
  - `walk_along_line_forward` and `walk_along_line_backwards` are ordinary
    functions. Each is a `Player` method with a `while` loop (`FollowLoop`), proved
    equal to a pure function (`FollowLine`, `RetraceLine`).
  - `throw_routine` is a generator modelled only by the method
    `Player.ThrowRoutine`. The method takes the generator's suspension point
    (`ThrowPoint`) and states the effect of each `next()` in its contract.
  - `manage_drive` is an endless generator without local state. One `next()` is
    the method `Player.ManageDrive`, which appends the command that the dispatch
    rule `DriveDecision` gives for the current fields.
- `TaskLoop` (`task_loop.dfy`) holds the main loop. On each tick, `manage_drive`
  sends a command built from the fields as they stand, then `run` advances one
  step. The loop ends when a `next()` call raises.

As written, `walk_along_line_forward` and `walk_along_line_backwards` contain no
`yield`. `run` therefore executes the whole forward walk inside one step and then
evaluates `yield from None`, which raises a TypeError. The model records this as
`Raised(NoneNotIterable)`.

Consequences for the program:

- The drive base only ever receives stops and `Drive(100, 0.0)`.
- The line-following turn rate never reaches the wheels.
- The catapult is homed once at startup and never fired.

`throw_routine` and `walk_along_line_backwards` are still modelled and proved as
stand-alone routines.

Some facts about `main.py` that a reader might not expect:

- `set_tension` ignores a value outside [40, 100]. It does not clamp it to a bound.
- The line threshold is `(9 + 85) / 2 = 47.0`, and the backward factor is exactly -1.
- No speed factor or timer changes the drive speed: only `start_routine` sets it to a non-zero value
  (100); the constructor, `throw_routine` and `walk_along_line_backwards` set it to 0.
- The forward walk ends at any non-white reading; no particular stop colour is
  tested.
- As written, the mission never reaches the throw or the return.

## Model

| member | source | states |
|---|---|---|
| `CatapultControl.GuardedTension` | main.py:64-66 | the new tension is either the requested value or the old one; it is the requested value exactly when that value lies in [40, 100] (so it is never clamped); an in-range tension stays in range |
| `CatapultControl.ApplyOp` | main.py:91-98 | from an in-range tension, increase adds exactly 1 except at 100, where it does nothing; decrease subtracts exactly 1 except at 40, where it does nothing |
| `CatapultControl.TensionStaysInRange` | main.py:46-98 | starting from an in-range tension, any sequence of set/increase/decrease leaves the tension in [40, 100] |
| `CatapultControl.ShootEndsLocked` | main.py:58-73 | the firing sequence's last command is the lock; from any mechanism state, it ends latched with the tension motor at the angle recorded on entry |
| `CatapultControl.ShootReleasesWound` | main.py:68-71 | the latch opens only after the tension motor has stalled against the spring, and while it is still held there |
| `CatapultControl.ActuateAllAppend` | main.py:68-73 | interpreting a trace in two parts gives the same mechanism state as interpreting it whole |
| `CatapultControl.Catapult.constructor` | main.py:50-53 | a new catapult has tension 70 (in range) and has issued no command |
| `CatapultControl.Catapult.Startup` | main.py:55-56 | startup issues exactly the lock command, after which the latch is known to be locked |
| `CatapultControl.Catapult.Lock` | main.py:58-59 | appends a release-motor stall at power -100, duty 40, and the latch becomes locked |
| `CatapultControl.Catapult.Release` | main.py:61-62 | appends a release-motor stall at power +100, duty 40, and the latch becomes released |
| `CatapultControl.Catapult.SetTension` | main.py:64-66 | the tension becomes the guarded value: the requested one if in range, otherwise unchanged; the bounds invariant is kept |
| `CatapultControl.Catapult.Shoot` | main.py:68-73 | appends, in order: a tension stall (power 100, duty = current tension), a release, a run to the start angle at speed 300, and a lock; afterwards the mechanism is locked, with the tension motor at the start angle |
| `CatapultControl.Display.constructor` | main.py:79-81 | a new display refers to the given catapult, the one whose tension its buttons change |
| `CatapultControl.Display.Increase` | main.py:91-93 | tension steps up by one through the guarded setter; the bounds invariant is kept |
| `CatapultControl.Display.Decrease` | main.py:96-98 | tension steps down by one through the guarded setter; the bounds invariant is kept |
| `LineFollower.TurnRate` | main.py:156-159 | the turn rate is zero exactly at reflectance 47; going forwards it is positive exactly above 47, going backwards exactly below 47 |
| `LineFollower.TurnRateLaw` | main.py:39-42 | the threshold is (9 + 85) / 2 = 47; the forward rate is 1.2 * (r - 47), and the backward rate is its negation |
| `LineFollower.TurnRateMonotone` | main.py:156-159 | a brighter reading never gives a smaller forward rate, nor a larger backward rate |
| `Mission.DriveDecision` | main.py:179-185 | a stop is sent exactly when the speed is 0; otherwise the command is a drive with that non-zero speed and the current turn rate, whatever the turn rate is |
| `Mission.InitResume` | main.py:146-148 | one step consumes one colour and yields exactly when it is not green, returns exactly when it is green, and starves only when no colour is left; it never raises and no field changes |
| `Mission.StartResume` | main.py:150-154 | one step consumes one colour (none when none is left) and no reflectance; it yields exactly when the colour is green, and then the speed is 100 and the turn 0; on a non-green colour it returns, leaving both fields as they were; it starves only when no colour is left and never raises |
| `Mission.FollowLine` | main.py:161-163 | the follow loop never yields and never changes the drive speed; it either finishes or runs out of readings |
| `Mission.FollowLineClosedForm` | main.py:161-163 | with w white readings in front, the loop finishes exactly when a non-white reading and w reflectances are available; it consumes w + 1 colours and w reflectances; the turn rate is that of the last reflectance read, or unchanged when w = 0 |
| `Mission.FollowLineScenario` | main.py:156-163 | whites with reflectances 90, 47, 12 and then red: the walk finishes with turn rate -42.0 and speed untouched |
| `Mission.RetraceLine` | main.py:173-177 | the backward walk never yields; when it finishes, the speed and turn rate are both 0 whatever it read; it consumes the same readings as the follow loop |
| `Mission.ResumeStart` | main.py:189-190 | once start_routine's loop ends, the step either runs out of readings or raises the TypeError of `yield from None`; it never continues to the throw |
| `Mission.RunResume` | main.py:187-192 | one step of run never returns normally; a yield consumes at least one colour and leaves run suspended; StopIteration is raised exactly on a closed run |
| `Mission.Player.constructor` | main.py:124-138 | a new player has speed 0, turn rate 0, a catapult at tension 70 that has issued no command, and a display sharing that catapult |
| `Mission.Player.Startup` | main.py:142-144 | homes the catapult latch: exactly one lock command, after which the latch is locked |
| `Mission.Player.InitRoutine` | main.py:146-148 | has exactly the effect of one init step |
| `Mission.Player.StartRoutine` | main.py:150-154 | has exactly the effect of one start step |
| `Mission.Player.UpdateSpeedTurnRate` | main.py:156-159 | consumes one reflectance and sets the turn rate by the law; only the turn rate changes |
| `Mission.Player.FollowLoop` | main.py:162-163 | the `while` loop both walks share (main.py:174-175 is the same loop going backwards) has exactly the effect of the follow loop: it polls the left colour until it is not white, steering by the right reflectance on each white reading |
| `Mission.Player.WalkAlongLineForward` | main.py:161-163 | runs the whole follow loop in one call, with exactly the effect of the follow loop, going forwards |
| `Mission.Player.WalkAlongLineBackwards` | main.py:173-177 | runs the backward loop in one call and then stops the robot, with exactly the effect of the backward walk |
| `Mission.Player.ThrowRoutine` | main.py:165-171 | step 1 sets speed and turn to 0 and yields, without touching the catapult; step 2 sets tension 70 and fires (the four-command sequence), ending latched, and yields; step 3 runs off the end of the generator (returns); a `next()` on the finished generator raises StopIteration; steps 3 and later change nothing |
| `Mission.Player.ManageDrive` | main.py:179-185 | appends to the drive trace exactly the command the dispatch rule gives for the current fields |
| `Mission.Player.Run` | main.py:187-192 | has exactly the effect of one step of run |
| `TaskLoop.TickOnce` | main.py:216-219 | the drive command of a tick is a stop exactly when the speed written by the previous ticks is 0; a yielding run step consumes a colour |
| `TaskLoop.Ticks` | main.py:216-219 | the loop sends at least one command and ends only on a raise or lack of readings, never at a yield or a normal return |
| `TaskLoop.WheelsNeverFollowTheLine` | main.py:187-192 | from power-on fields, every drive command sent is a stop or a drive at 100 with turn 0, and the run ends with the TypeError or out of readings |
| `TaskLoop.StartPhaseTicks` | main.py:150-163 | from start_routine's loop with h greens in front and a forward walk that completes, the drive base receives h + 1 full-speed commands, and then the TypeError is raised |
| `TaskLoop.GreenStartTick` | main.py:150-154 | a green reading in start_routine at full speed adds one more drive at 100 with turn 0, and the rest of the run continues from the next reading |
| `TaskLoop.StartYields` | main.py:150-154 | at full speed with turn 0, a green reading makes run yield in start_routine, with only that reading consumed |
| `TaskLoop.InitYields` | main.py:146-148 | a non-green reading makes run yield in init_routine, with only that reading consumed |
| `TaskLoop.TicksUnfold` | main.py:216-219 | a tick whose run step yields sends its command, and then the ticks continue from where run was left |
| `TaskLoop.GreenTicks` | main.py:188-190 | when the first reading is green, init_routine ends and start_routine reads the next colour in the same step; the drive base receives one stop, then one drive at 100 with turn 0 per further green, and then the TypeError is raised |
| `TaskLoop.NonGreenTick` | main.py:146-148 | when the first reading is not green, the tick sends a stop and yields; the run's commands are this stop followed by those of the run from the next reading |
| `TaskLoop.ProgramTicks` | main.py:209-219 | given g non-green readings, then green, then h greens, then a non-green reading, and a forward walk that completes: the drive base receives g + 1 stops followed by h drives at 100 with turn 0, and then the TypeError is raised |
| `TaskLoop.ProgramScenario` | main.py:209-219 | colours black, green, green, green, red, black give stop, stop, drive, drive, and then the TypeError |
| `TaskLoop.Tick` | main.py:216-219 | manage_drive runs before run within a tick, so the command sent reflects the fields as run left them on the previous tick |
| `TaskLoop.MainLoop` | main.py:216-219 | the loop sends exactly the commands of the tick sequence and stops with its ending and its final fields |
| `TaskLoop.Program` | main.py:207-219 | the whole program homes the catapult once and never fires it (tension stays 70); its drive trace and ending are those of the tick sequence from power-on fields |

## Left out

- Hardware: `Motor`, `DriveBase`, `ColorSensor`, `GyroSensor`, `EV3Brick`, `wait(10)` and the start-up beep are not modelled. Motor and drive calls become recorded commands. Sensor reads take the next value of a finite sequence.
- Stall timing is not modelled: each `run_until_stalled` and `run_target` call is one atomic command. The angle `tension_motor.angle()` reports is a parameter of `Shoot` and `ThrowRoutine`.
- Running out of readings (`Starved`) is an artefact of the finite input: the real program would still be polling.
- `Display.startup`, `Display.update` and `Display.loop` are not modelled, because they are screen drawing and button polling. The buttons' effect on tension is covered by `Increase`, `Decrease` and `Shoot`.
- The `log` task is left out of the tick (telemetry I/O). As written, it reads `self.middle_color_sensor`, which is never assigned, so its first `next()` would raise before `run` is ever advanced.
- `DummySensor` is not modelled: it is unused.
- `mode` and the `MODE_*` constants are not modelled. `mode` is never written after construction, so it stays `MODE_START`.
- The `DataLog`, the gyro sensor and the second colour sensor's colour reading are not modelled: only telemetry uses them.
- Reflectance readings are not bounded to 0-100 in the model. The law holds for any integer.
- `TaskLoop.Tick` fixes the task order to manage_drive, then run, as in the task list. It does not model a general list of tasks.
- `LineFollower.TurnRate` is computed over exact reals, not floating point, so rounding of `1.2 * deviation` is not modelled.
