# Node-2 game controller: a verified model

This project models the game logic of node 2 of a ball-and-paddle arcade
game (node2/game.c). A timer calls `game_run` once per tick. Each tick does
three things:

- It turns the latest operator input into motor, servo and solenoid commands.
  The command set depends on the selected control mode (slider position,
  joystick speed or micro:bit tilt) and on the difficulty.
- It watches an infrared beam for a ball that gets past the paddle, and
  debounces that sensor.
- It counts score and lives, and reports each lost life on the CAN bus.

The model has three modules:

- `GameLogic` (game_logic.dfy) holds the types and the constants of game.c.
  It also states every operation as a pure function of the controller's
  state: `Detect`, `DifficultyCommands`, `Dispatch` and `Tick`, plus the
  IMPOSSIBLE input maps `SliderTarget`, `JoystickSpeed` and `SteerDir`.
- `GameRuns` (game_runs.dfy) proves properties over sequences of calls. It
  covers the debounce over runs of readings, the score over runs of ticks,
  and the number of CAN notifications over any interleaving of calls,
  including direct calls of `game_count_fails`.
- `GameNode` (game.dfy) holds the class `Game`. Its fields are the
  file-scope statics `score`, `lives_left`, `counting_flag`,
  `controller_select`, `difficulty_select` and `user_data`. Each method
  updates those fields in place, as the C function does, and is proved
  against the matching function in `GameLogic`.

Hardware reads become method parameters: the infrared level from
`adc_read`, plus `microbit_dir` and `microbit_button`. Each call into a
driver (motor, servo, solenoid, PID controller, CAN) is returned as a
`Command` value that records its arguments. A method returns its commands in
the order the C code makes the calls.

Modelling choices:

- `unsigned int` counters are integers in [0, 2^32). `--lives_left` and
  `++score` wrap around (`Dec32`, `Inc32`). There is no clamp, because the
  source has none.
- `counting_flag` is a `bool`. The source only ever stores 0 or 1 in it, and
  it starts at 0.
- A C enum variable can hold a value that is not one of its enumerators.
  `OtherController`, `OtherDifficulty` and `OtherDir` stand for such values.
  The `default` branches of the two switches handle unknown modes and
  difficulties. No switch reads the micro:bit direction: the `if`/`else if`
  at node2/game.c:189-194 swaps only left and right, so `OtherDir` passes
  through unchanged.
- Plain `char` is taken to be unsigned, as it is on the ARM target. The raw
  frame of `game_set_user_data` is a sequence of bytes in 0..255, so the
  stored buttons `data[4]` and `data[5]` lie in that range. The CAN data byte
  is `lives_left % 0x100`.
- Three constants come from headers that are not part of this model:
  `SLIDER_MAX`, `INITIAL_LIVES` and `GAME_LIVES_LEFT_ID`. They are the
  fields of `Externals`, which the constructor receives. Every property
  holds for all of their values. In particular, `INITIAL_LIVES` is not
  assumed to equal `NUMBER_OF_LIVES`.
- The scaling functions `joystick_scale_x/y` and `slider_scale_left/right`
  are not part of this model. They are passed in as a `Scaling` record of
  arbitrary total functions.
- The CAN message is modelled as its id, its data length and `data[0]`.
  can_controller.h is not part of this model. The model takes the message's
  data field to be a `char` array, so `.data = lives_left` stores the low
  byte of `lives_left` in `data[0]`. `CanSend` also records the second
  argument of `can_send`, the transmit mailbox 0 (node2/game.c:212).
- `game_get_score` returns the `unsigned int` score as an `int`. The model
  keeps the bit pattern, so scores of 2^31 and above come back negative
  (`AsInt32`).
- The constructor models program load: the statics take their initialisers
  (`SLIDER_POS_CTRL`, `HARD`) and everything else is zero. `Init` models
  `game_init`, which changes only the score and the lives. It always pushes
  the HARD speed cap and gains, whatever difficulty is stored.

Behaviour kept as the code has it:

- **Order inside `game_run`.** The mode dispatch runs first
  (node2/game.c:158-203). Failure detection and the CAN message follow
  (205-213), and the score increment comes last (215).
- **Reading exactly at the threshold.** A level equal to `IR_TRESHOLD` neither
  costs a life nor re-arms the detector (node2/game.c:99, 105).
- **Resetting lives.** `game_reset_lives_left` restores `INITIAL_LIVES`, while
  `game_init` uses `NUMBER_OF_LIVES` (3). The model keeps these as two
  separate constants.
- **Unknown difficulty.** `game_set_difficulty` also stores a value outside
  HARD, EXTREME and IMPOSSIBLE, and pushes no gains for it.
- **Fall-through.** The micro:bit case falls through into the empty
  `default` branch. The model gives it no extra effect, because that branch
  does nothing.

## Model

| member | source | states |
|---|---|---|
| `GameLogic.Detect` | node2/game.c:96-110 | A failure is reported iff the level is below 1000 and the flag is clear. A failure costs exactly one life (wrapping at 0). Otherwise lives are unchanged. The flag is set by a low reading, cleared by a high one and kept at exactly 1000. Nothing else changes. |
| `GameNode.Game.CountFails` | node2/game.c:96-110 | Per case, in place. Fresh obstruction: returns 1, lives decremented, flag set. Latched obstruction: returns 0, nothing changes. Above the threshold: returns 0, flag cleared, lives kept. At the threshold: returns 0, nothing changes. Agrees with `Detect`. |
| `GameLogic.LifeLostAtZeroWraps` | node2/game.c:99-102 | With no underflow guard, a failure at 0 lives leaves 0xFFFFFFFF lives and sends payload 0xFF. |
| `GameLogic.DifficultyCommands` | node2/game.c:118-143 | A known difficulty pushes the gains, then the speed cap, and never a CAN message. An unknown value pushes nothing. |
| `GameLogic.DifficultyTable` | node2/game.c:21-33 | HARD pushes (35,20,1) and 0x4FF, EXTREME (20,10,1) and 0x3FF, IMPOSSIBLE (40,25,1) and 0x4FF. Any other value pushes nothing. |
| `GameNode.Game.SetDifficulty` | node2/game.c:118-144 | Issues exactly `DifficultyCommands(d)` and stores `d`, known or not. Nothing else changes. |
| `GameLogic.InitPushesHardTuning` | node2/game.c:82-91 | `game_init` pushes the HARD gains and the HARD cap, the PID output limit is 0x4FF, and after power-on plus init the state is score 0, 3 lives, HARD. |
| `GameNode.Game.Init` | node2/game.c:82-91 | Score 0 and lives `NUMBER_OF_LIVES`. Flag, selectors and input are kept. The calls are the micro:bit speed cap 0x4FF, then PID init with the HARD gains and 0x4FF. |
| `GameLogic.PowerOn` | node2/game.c:41-55 | The statics at program load: zero, except slider position control and HARD. It has no `ensures`. `InitPushesHardTuning` states the state after power-on and init, and `Game.constructor` ensures the class starts in it. |
| `GameLogic.GameInit` | node2/game.c:83-84 | Score 0 and `NUMBER_OF_LIVES` lives, everything else kept. It has no `ensures`. `InitPushesHardTuning` and `Game.Init` state it. |
| `GameNode.Game.constructor` | node2/game.c:41-55 | At program load, score, lives, flag and input are zero, the mode is slider position and the difficulty is HARD. |
| `GameNode.Game.SetController` | node2/game.c:113-115 | Stores the mode; nothing else changes. |
| `GameLogic.ScaleFrameReadsSixBytes` | node2/game.c:147-154 | The stored snapshot depends only on the first six bytes, so a later frame fully replaces an earlier one. The buttons are stored unscaled. |
| `GameLogic.ScaleFrame` | node2/game.c:148-153 | The snapshot of a raw frame: bytes 0-3 through the scaling functions, bytes 4-5 as the buttons. It has no `ensures`. `ScaleFrameReadsSixBytes` states its properties. |
| `GameNode.Game.SetUserData` | node2/game.c:147-154 | Replaces `user_data` with the scaled frame; the buttons are bytes 4 and 5; nothing else changes. |
| `GameLogic.SliderTarget` | node2/game.c:161-166 | The slider-mode motor target. It has no `ensures`. `SliderInversion` states its properties. |
| `GameLogic.SliderInversion` | node2/game.c:159-166 | The slider target is `slider_right`, except under IMPOSSIBLE, where it is `SLIDER_MAX - slider_right`. The two targets sum to `SLIDER_MAX`. |
| `GameLogic.JoystickSpeed` | node2/game.c:174-179 | The joystick-mode motor speed. It has no `ensures`. `JoystickInversion` states its properties. |
| `GameLogic.JoystickInversion` | node2/game.c:172-179 | The joystick speed is `joystick_x`, except under IMPOSSIBLE, where it is `-joystick_x`. Inverting twice gives the input back. |
| `GameLogic.Mirror` | node2/game.c:189-194 | Left and right exchanged, every other direction kept. It has no `ensures`. `SteerDirSwapsLeftRight` states its properties. |
| `GameLogic.SteerDir` | node2/game.c:188-195 | The micro:bit-mode direction: mirrored under IMPOSSIBLE only. It has no `ensures`. `SteerDirSwapsLeftRight` states its properties. |
| `GameLogic.SteerDirSwapsLeftRight` | node2/game.c:187-195 | Under IMPOSSIBLE, left and right are exchanged and every other direction passes unchanged. Other difficulties change nothing. The map is an involution. A direction changes iff it is left or right under IMPOSSIBLE. |
| `GameLogic.Dispatch` | node2/game.c:158-203 | A known mode issues one motor command, then one servo command, then one solenoid command. An unknown mode issues nothing. No mode sends a CAN message. The servo gets `joystick_x`, except in joystick mode, where it gets `2*(slider_right-50)`. The solenoid gets the stored `button_right`, except in micro:bit mode, where it gets the micro:bit's own button. |
| `GameLogic.ImpossibleInvertsMotorOnly` | node2/game.c:158-203 | Compared with any other difficulty on the same input, IMPOSSIBLE changes only the motor command. It mirrors the slider target, negates the joystick speed and mirrors the direction. The joystick-mode servo gets `2*(slider_right-50)`, and the micro:bit mode's solenoid gets the micro:bit button. |
| `GameLogic.LivesLeftMessage` | node2/game.c:206-210 | The message has id `GAME_LIVES_LEFT_ID` and length 1. Its data byte equals the lives count whenever that count fits in a byte. |
| `GameLogic.Tick` | node2/game.c:157-216 | The score goes up by exactly 1 (mod 2^32) in every mode and on every failure outcome. Lives and flag move as `Detect` says. The mode, the difficulty and the input are kept. The calls are exactly `Dispatch`'s actuator calls, followed by one `can_send` of the lives-left message on mailbox 0 when a failure is detected, and nothing more otherwise. |
| `GameLogic.TickNotifiesOnFailure` | node2/game.c:205-213 | A tick sends exactly one CAN message iff the detector reported a failure on that tick, and none otherwise. The message carries the already-decremented lives count. |
| `GameNode.Game.Run` | node2/game.c:157-216 | Score incremented, selectors and input kept, and one lives-left message exactly on a failure. The new state and the call list equal `Tick`'s. |
| `GameLogic.AsInt32` | node2/game.c:229-231 | The returned `int` has the score's bit pattern: it lies in the `int` range, agrees with the score mod 2^32, and equals it below 2^31. |
| `GameNode.Game.GetScore` | node2/game.c:229-231 | Returns the score as a C `int`, and returns the score itself below 2^31. |
| `GameNode.Game.ResetScore` | node2/game.c:234-236 | Score becomes 0 whatever it was; nothing else changes. |
| `GameNode.Game.ResetLivesLeft` | node2/game.c:239-241 | Lives become `INITIAL_LIVES`; nothing else changes. |
| `GameRuns.ObstructionCostsOneLife` | node2/game.c:99-109 | For any K ≥ 1 consecutive readings below the threshold, starting unlatched, exactly one life is lost and the detector ends latched. |
| `GameRuns.LatchedObstructionIsFree` | node2/game.c:99-109 | While latched, any run of readings below the threshold changes nothing. |
| `GameRuns.DetectsCountsOnsets` | node2/game.c:96-110 | Any sequence of readings loses exactly one life per distinct obstruction (mod 2^32). An obstruction is a low reading taken while the last reading off the threshold was high. The detector ends latched exactly when the last reading off the threshold was low. |
| `GameRuns.EachObstructionCostsOneLife` | node2/game.c:99-107 | Readings that alternate between a high reading and K ≥ 1 low readings lose one life per low run. |
| `GameRuns.ScoreCountsTicks` | node2/game.c:215 | Over any sequence of calls with no `game_init` and no score reset, the final score is the initial score plus the number of ticks (mod 2^32). |
| `GameRuns.Step` | node2/game.c:82-241 | One call of any entry point: `game_run`, a direct `game_count_fails`, `game_init`, the three setters and the two resets. It has no `ensures`. `StepNotifications` states what it sends, and `ScoreCountsTicks` and `ReplayFollowsDetector` state what runs of it do. |
| `GameRuns.ReplayFollowsDetector` | node2/game.c:96-110 | Over any calls, the flag is decided by the detector's IR readings alone: those of the ticks and of direct `game_count_fails` calls. Without a lives reset, so are the lives. |
| `GameRuns.StepNotifications` | node2/game.c:205-213 | Of all the calls, only a tick that detects a failure sends a message, and it sends one. A direct `game_count_fails` call sends none, even when it costs a life. |
| `GameRuns.OnsetsSplit` | node2/game.c:96-110 | Each distinct obstruction in the detector's readings is met either by a tick or by a direct `game_count_fails` call. Without direct calls, every one is met by a tick. |
| `GameRuns.NotificationsCountOnsets` | node2/game.c:205-213 | Over any interleaving of calls, the number of lives-left messages equals the number of distinct obstructions met by ticks. |
| `GameRuns.LostLivesAreReportedOrDirect` | node2/game.c:96-213 | Without a lives reset, the lives drop by the number of messages sent plus the obstructions met by direct `game_count_fails` calls (mod 2^32). Without direct calls, the messages count every obstruction in the readings. |
| `GameRuns.SliderScenario` | node2/game.c:157-216 | After init with HARD and slider control and `slider_right` = 80, a clear tick drives the motor to 80 and keeps 3 lives. A broken-beam tick leaves 2 lives and sends payload 2, and another broken-beam tick leaves 2 lives and sends nothing. |
| `GameNode.HeldObstruction` | node2/game.c:157-216 | The class's methods reproduce this: after init, three ticks with the beam held broken leave score 3, 2 lives and the detector latched. The first tick sends one message with payload 2, and the other two send none. |

## Left out

- Timer set-up and control (`game_timer_init`, `game_timer_enable`, `game_timer_disable`): register writes with no logic.
- The peripheral start-up calls in `game_init` (`adc_init`, `servo_init`, `motor_init`, `solenoid_init`, `microbit_init`): these are driver code outside game.c. Only their effect on the game state is modelled.
- `adc_read`, `microbit_dir` and `microbit_button` are hardware reads. Their results are parameters.
- The inside of `can_send` and of the motor, servo, solenoid and PID drivers. Only the call and its arguments are recorded.
- The bodies of the scaling functions (user_input_scaling is not part of this model).
- `T = 1.0 / MOTOR_TIMER_FREQ`, the floating-point sampling period passed to `pid_controller_init`, is not recorded in `PidInit`. `F_CPU` is only used by the timer set-up.
- Concurrency between `game_set_user_data` and the timer interrupt that runs `game_run`. Calls are modelled as sequential and atomic.
- Overflow of C `int` in `SLIDER_MAX - slider_right`, `-joystick_x` and `2*(slider_right - 50)`. It is undefined behaviour in C, and the model uses unbounded integers for these values.
- Truncation of `GAME_LIVES_LEFT_ID` to the width of the CAN id field, which is not part of this model.
- `GameRuns.Step`: the `set_user_data` event carries the already-scaled snapshot, not the raw frame.
