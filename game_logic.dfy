/**
  The per-tick logic of the node-2 game controller (node2/game.c), as values.

  Every operation of the controller is stated here as a function from the
  controller's state (the file-scope statics of game.c, collected in
  `GameState`) and the values it reads from its sensors to the new state and
  the list of calls it makes into the actuator, PID and CAN drivers
  (`Command`). The class in module GameNode performs the same steps in place
  and is proved against these functions.
 */
module GameLogic {

  /** The number of values of a C `unsigned int` on the target (32 bits). */
  const WORD: int := 0x1_0000_0000

  type U32 = x: int | 0 <= x < 0x1_0000_0000
  type U16 = x: int | 0 <= x < 0x1_0000
  type Byte = x: int | 0 <= x < 0x100

  datatype Option<T> = None | Some(value: T)

  /** `--x` on an `unsigned int`: there is no guard, so 0 wraps to the largest value. */
  function Dec32(x: U32): U32 {
    (x - 1) % WORD
  }

  /** `++x` on an `unsigned int`: the largest value wraps to 0. */
  function Inc32(x: U32): U32 {
    (x + 1) % WORD
  }

  /** The `int` that `return score;` yields for an `unsigned int` score (same bit pattern). */
  function AsInt32(x: U32): (r: int)
    ensures -0x8000_0000 <= r < 0x8000_0000
    ensures (x - r) % WORD == 0
    ensures x < 0x8000_0000 ==> r == x
  {
    if x < 0x8000_0000 then x else x - WORD
  }

  // ---------------------------------------------------------------------------
  // Constants of game.c

  /** IR_TRESHOLD: an infrared level below this means the beam is broken. */
  const IR_THRESHOLD: U16 := 1000
  const NUMBER_OF_LIVES: U32 := 3

  datatype Gains = Gains(kp: int, ki: int, kd: int)

  const HARD_GAINS: Gains := Gains(35, 20, 1)
  const EXTREME_GAINS: Gains := Gains(20, 10, 1)
  const IMPOSSIBLE_GAINS: Gains := Gains(40, 25, 1)

  const MB_SPEED_HARD: int := 0x4FF
  const MB_SPEED_EXTREME: int := 0x3FF
  const MB_SPEED_IMPOSSIBLE: int := 0x4FF

  const MAX_MOTOR_SPEED: int := 0x4FF

  /**
    Constants that game.c takes from headers which are not part of this model
    (SLIDER_MAX, INITIAL_LIVES, GAME_LIVES_LEFT_ID). Nothing is assumed about
    their values: every property below holds for all of them.
   */
  datatype Externals = Externals(sliderMax: int, initialLives: U32, livesLeftId: int)

  // ---------------------------------------------------------------------------
  // Enumerations. A C enum variable can hold a value outside its enumerators;
  // the `Other…` variants stand for such values, which the switches send to
  // their `default` branches.

  /** CONTROLLER_SEL */
  datatype Controller = SliderPosCtrl | JoystickSpeedCtrl | MicrobitSpeedCtrl | OtherController(code: int)

  /** DIFFICULTY */
  datatype Difficulty = Hard | Extreme | Impossible | OtherDifficulty(code: int)

  /** ACC_DIR, the direction reported by the micro:bit accelerometer */
  datatype AccDir = AccLeft | AccRight | OtherDir(code: int)

  // ---------------------------------------------------------------------------
  // State, inputs and outputs

  /** The latest scaled input frame (`user_data`). */
  datatype UserData = UserData(
    joystickX: int, joystickY: int,
    sliderLeft: int, sliderRight: int,
    buttonLeft: int, buttonRight: int)

  /** The file-scope statics of game.c. */
  datatype GameState = GameState(
    score: U32,
    livesLeft: U32,
    countingFlag: bool,
    controller: Controller,
    difficulty: Difficulty,
    userData: UserData)

  /** A CAN frame with one data byte: identifier, data length and data[0]. */
  datatype CanMessage = CanMessage(id: int, dataLength: int, data: Byte)

  /** One call from game.c into a driver, with its arguments. */
  datatype Command =
    | PidInit(initGains: Gains, maxSpeed: int)
    | PidSetParameters(gains: Gains)
    | MotorSetMicrobitSpeed(speed: int)
    | MotorRunSlider(target: int)
    | MotorRunJoystick(joystickSpeed: int)
    | MotorRunMicrobit(dir: AccDir)
    | ServoSetPosition(position: int)
    | SolenoidRunButton(button: int)
    | CanSend(msg: CanMessage, mailbox: int)

  /** The scaling functions of user_input_scaling, whose bodies are not part of this model. */
  datatype Scaling = Scaling(
    joystickX: Byte -> int, joystickY: Byte -> int,
    sliderLeft: Byte -> int, sliderRight: Byte -> int)

  // ---------------------------------------------------------------------------
  // Lifecycle

  /** The statics at program load: zero-initialised, except the two selectors. */
  function PowerOn(): GameState {
    GameState(0, 0, false, SliderPosCtrl, Hard, UserData(0, 0, 0, 0, 0, 0))
  }

  /** What game_init does to the statics: only the score and the lives are set. */
  function GameInit(st: GameState): GameState {
    st.(score := 0, livesLeft := NUMBER_OF_LIVES)
  }

  /** The driver calls of game_init that carry game logic, in order. */
  const INIT_COMMANDS: seq<Command> :=
    [MotorSetMicrobitSpeed(MB_SPEED_HARD), PidInit(HARD_GAINS, MAX_MOTOR_SPEED)]

  // ---------------------------------------------------------------------------
  // Failure detection (game_count_fails)

  datatype Counted = Counted(state: GameState, failed: bool)

  /**
    One reading of the infrared level: a reading below the threshold while the
    flag is clear costs a life and latches the flag; a reading above the
    threshold clears the flag; a reading at the threshold changes nothing.
   */
  function Detect(st: GameState, irLevel: U16): (r: Counted)
    // only the lives and the flag can change
    ensures r.state == st.(livesLeft := r.state.livesLeft, countingFlag := r.state.countingFlag)
    // a failure is exactly a fresh obstruction, and it costs exactly one life
    ensures r.failed <==> irLevel < IR_THRESHOLD && !st.countingFlag
    ensures r.state.livesLeft == if r.failed then Dec32(st.livesLeft) else st.livesLeft
    // the flag afterwards: set by a low reading, cleared by a high one, kept at the threshold
    ensures r.state.countingFlag <==>
              irLevel < IR_THRESHOLD || (irLevel == IR_THRESHOLD && st.countingFlag)
  {
    if irLevel < IR_THRESHOLD && !st.countingFlag then
      Counted(st.(livesLeft := Dec32(st.livesLeft), countingFlag := true), true)
    else if irLevel > IR_THRESHOLD then
      Counted(st.(countingFlag := false), false)
    else
      Counted(st, false)
  }

  // ---------------------------------------------------------------------------
  // Difficulty policy (game_set_difficulty)

  datatype Tuning = Tuning(gains: Gains, microbitSpeed: int)

  /** The gain triple and micro:bit speed cap bound to each known difficulty. */
  function DifficultyTuning(d: Difficulty): Option<Tuning> {
    match d
    case Hard => Some(Tuning(HARD_GAINS, MB_SPEED_HARD))
    case Extreme => Some(Tuning(EXTREME_GAINS, MB_SPEED_EXTREME))
    case Impossible => Some(Tuning(IMPOSSIBLE_GAINS, MB_SPEED_IMPOSSIBLE))
    case OtherDifficulty(_) => None
  }

  /** The driver calls of game_set_difficulty: gains first, then the speed cap. */
  function DifficultyCommands(d: Difficulty): (r: seq<Command>)
    ensures r == [] <==> d.OtherDifficulty?
    ensures r != [] ==> |r| == 2 && r[0].PidSetParameters? && r[1].MotorSetMicrobitSpeed?
    ensures forall c | c in r :: !c.CanSend?
  {
    match DifficultyTuning(d)
    case None => []
    case Some(t) => [PidSetParameters(t.gains), MotorSetMicrobitSpeed(t.microbitSpeed)]
  }

  /** The fixed table: HARD (35,20,1)/0x4FF, EXTREME (20,10,1)/0x3FF, IMPOSSIBLE (40,25,1)/0x4FF. */
  lemma DifficultyTable(d: Difficulty)
    ensures d == Hard ==>
      DifficultyCommands(d) == [PidSetParameters(Gains(35, 20, 1)), MotorSetMicrobitSpeed(0x4FF)]
    ensures d == Extreme ==>
      DifficultyCommands(d) == [PidSetParameters(Gains(20, 10, 1)), MotorSetMicrobitSpeed(0x3FF)]
    ensures d == Impossible ==>
      DifficultyCommands(d) == [PidSetParameters(Gains(40, 25, 1)), MotorSetMicrobitSpeed(0x4FF)]
    ensures d.OtherDifficulty? ==> DifficultyCommands(d) == []
  {
  }

  /** game_init pushes the HARD gains and the HARD speed cap, whatever difficulty is stored. */
  lemma InitPushesHardTuning()
    ensures DifficultyTuning(Hard) == Some(Tuning(INIT_COMMANDS[1].initGains, INIT_COMMANDS[0].speed))
    ensures INIT_COMMANDS[1].maxSpeed == 0x4FF
    ensures GameInit(PowerOn()).difficulty == Hard
    ensures GameInit(PowerOn()).score == 0 && GameInit(PowerOn()).livesLeft == 3
  {
  }

  // ---------------------------------------------------------------------------
  // Input ingestion (game_set_user_data)

  /** The snapshot stored from a raw frame; the buttons are stored unscaled. */
  function ScaleFrame(sc: Scaling, frame: seq<Byte>): (u: UserData)
    requires |frame| >= 6
  {
    UserData(
      sc.joystickX(frame[0]), sc.joystickY(frame[1]),
      sc.sliderLeft(frame[2]), sc.sliderRight(frame[3]),
      frame[4], frame[5])
  }

  /** The snapshot depends on the first six bytes only, so a later frame fully replaces an earlier one. */
  lemma ScaleFrameReadsSixBytes(sc: Scaling, frame: seq<Byte>, other: seq<Byte>)
    requires |frame| >= 6 && |other| >= 6
    ensures ScaleFrame(sc, frame) == ScaleFrame(sc, other) <== frame[..6] == other[..6]
    ensures ScaleFrame(sc, frame).buttonLeft == frame[4] && ScaleFrame(sc, frame).buttonRight == frame[5]
  {
    if frame[..6] == other[..6] {
      assert forall i | 0 <= i < 6 :: frame[i] == frame[..6][i] == other[..6][i] == other[i];
    }
  }

  // ---------------------------------------------------------------------------
  // Mode dispatch (the switch in game_run)

  /** Slider position control: the target, mirrored under IMPOSSIBLE. */
  function SliderTarget(d: Difficulty, sliderMax: int, sliderRight: int): int {
    if d == Impossible then sliderMax - sliderRight else sliderRight
  }

  /** Joystick speed control: the speed, negated under IMPOSSIBLE. */
  function JoystickSpeed(d: Difficulty, joystickX: int): int {
    if d == Impossible then -joystickX else joystickX
  }

  /** Left and right exchanged; every other direction kept. */
  function Mirror(dir: AccDir): AccDir {
    match dir
    case AccRight => AccLeft
    case AccLeft => AccRight
    case OtherDir(_) => dir
  }

  /** Micro:bit speed control: the direction, mirrored under IMPOSSIBLE. */
  function SteerDir(d: Difficulty, dir: AccDir): AccDir {
    if d == Impossible then Mirror(dir) else dir
  }

  /** The servo position in joystick speed control. */
  function JoystickModeServo(sliderRight: int): int {
    2 * (sliderRight - 50)
  }

  lemma SliderInversion(d: Difficulty, sliderMax: int, sliderRight: int)
    ensures d != Impossible ==> SliderTarget(d, sliderMax, sliderRight) == sliderRight
    ensures SliderTarget(Impossible, sliderMax, sliderRight) == sliderMax - sliderRight
    ensures d != Impossible ==>
      SliderTarget(Impossible, sliderMax, sliderRight) + SliderTarget(d, sliderMax, sliderRight) == sliderMax
  {
  }

  lemma JoystickInversion(d: Difficulty, joystickX: int)
    ensures d != Impossible ==> JoystickSpeed(d, joystickX) == joystickX
    ensures JoystickSpeed(Impossible, joystickX) == -joystickX
    ensures JoystickSpeed(Impossible, JoystickSpeed(Impossible, joystickX)) == joystickX
  {
  }

  /** Under IMPOSSIBLE exactly left and right are exchanged; the mapping undoes itself. */
  lemma SteerDirSwapsLeftRight(d: Difficulty, dir: AccDir)
    ensures SteerDir(Impossible, AccLeft) == AccRight && SteerDir(Impossible, AccRight) == AccLeft
    ensures !dir.AccLeft? && !dir.AccRight? ==> SteerDir(d, dir) == dir
    ensures d != Impossible ==> SteerDir(d, dir) == dir
    ensures SteerDir(d, SteerDir(d, dir)) == dir
    ensures SteerDir(d, dir) != dir <==> d == Impossible && (dir.AccLeft? || dir.AccRight?)
  {
  }

  /**
    The actuator calls of one tick: one motor, one servo and one solenoid
    command in that order for a known mode, none for an unknown mode, and
    never a CAN message.
   */
  function Dispatch(st: GameState, sliderMax: int, dir: AccDir, microbitButton: int): (r: seq<Command>)
    ensures r == [] <==> st.controller.OtherController?
    ensures r != [] ==>
      |r| == 3 && r[1].ServoSetPosition? && r[2].SolenoidRunButton? &&
      (r[0].MotorRunSlider? || r[0].MotorRunJoystick? || r[0].MotorRunMicrobit?)
    // the servo follows the joystick, except in joystick mode, where it follows the right slider
    ensures r != [] ==>
      r[1].position == if st.controller == JoystickSpeedCtrl then 2 * (st.userData.sliderRight - 50) else st.userData.joystickX
    // the solenoid follows the stored right button, except in micro:bit mode, where it follows the micro:bit's button
    ensures r != [] ==>
      r[2].button == if st.controller == MicrobitSpeedCtrl then microbitButton else st.userData.buttonRight
    ensures forall c | c in r :: !c.CanSend?
  {
    var u := st.userData;
    match st.controller
    case SliderPosCtrl =>
      [ MotorRunSlider(SliderTarget(st.difficulty, sliderMax, u.sliderRight)),
        ServoSetPosition(u.joystickX),
        SolenoidRunButton(u.buttonRight) ]
    case JoystickSpeedCtrl =>
      [ MotorRunJoystick(JoystickSpeed(st.difficulty, u.joystickX)),
        ServoSetPosition(JoystickModeServo(u.sliderRight)),
        SolenoidRunButton(u.buttonRight) ]
    case MicrobitSpeedCtrl =>
      [ MotorRunMicrobit(SteerDir(st.difficulty, dir)),
        ServoSetPosition(u.joystickX),
        SolenoidRunButton(microbitButton) ]
    case OtherController(_) =>
      []
  }

  /**
    On identical input, IMPOSSIBLE differs from any other difficulty only in
    the motor command, which it inverts; servo and solenoid are the same.
   */
  lemma ImpossibleInvertsMotorOnly(st: GameState, other: Difficulty, sliderMax: int, dir: AccDir, microbitButton: int)
    requires other != Impossible
    ensures
      var inv := Dispatch(st.(difficulty := Impossible), sliderMax, dir, microbitButton);
      var nor := Dispatch(st.(difficulty := other), sliderMax, dir, microbitButton);
      && |inv| == |nor|
      && (st.controller.OtherController? ==> inv == [])
      && (inv != [] ==> inv[1..] == nor[1..])
      && (st.controller == SliderPosCtrl ==>
            inv[0].target == sliderMax - nor[0].target && nor[0].target == st.userData.sliderRight)
      && (st.controller == JoystickSpeedCtrl ==>
            inv[0].joystickSpeed == -nor[0].joystickSpeed && nor[0].joystickSpeed == st.userData.joystickX
            && nor[1].position == 2 * (st.userData.sliderRight - 50))
      && (st.controller == MicrobitSpeedCtrl ==>
            inv[0].dir == Mirror(nor[0].dir) && nor[0].dir == dir
            && nor[2].button == microbitButton)
  {
  }

  // ---------------------------------------------------------------------------
  // The tick (game_run)

  datatype TickResult = TickResult(state: GameState, commands: seq<Command>)

  /** The transmit mailbox game_run passes to `can_send`. */
  const LIVES_LEFT_MAILBOX: int := 0

  /** The lives-left notification: `.data = lives_left` stores the low byte into data[0]. */
  function LivesLeftMessage(ext: Externals, livesLeft: U32): (m: CanMessage)
    ensures m.id == ext.livesLeftId && m.dataLength == 1
    ensures livesLeft < 0x100 ==> m.data == livesLeft
  {
    CanMessage(ext.livesLeftId, 1, livesLeft % 0x100)
  }

  /**
    One timer tick, in the order of game_run: the mode dispatch, then failure
    detection with its notification, then the score increment.
   */
  function Tick(st: GameState, ext: Externals, irLevel: U16, dir: AccDir, microbitButton: int): (r: TickResult)
    ensures r.state.score == Inc32(st.score)
    ensures r.state.controller == st.controller && r.state.difficulty == st.difficulty
    ensures r.state.userData == st.userData
    ensures r.state.livesLeft == Detect(st, irLevel).state.livesLeft
    ensures r.state.countingFlag == Detect(st, irLevel).state.countingFlag
    // the mode's actuator calls come first, then the CAN message, on a failure only
    ensures
      var d := Dispatch(st, ext.sliderMax, dir, microbitButton);
      && |r.commands| == |d| + (if Detect(st, irLevel).failed then 1 else 0)
      && r.commands[..|d|] == d
      && (Detect(st, irLevel).failed ==>
            r.commands[|d|] == CanSend(LivesLeftMessage(ext, r.state.livesLeft), LIVES_LEFT_MAILBOX))
  {
    var counted := Detect(st, irLevel);
    var note := if counted.failed then [CanSend(LivesLeftMessage(ext, counted.state.livesLeft), LIVES_LEFT_MAILBOX)] else [];
    TickResult(counted.state.(score := Inc32(st.score)), Dispatch(st, ext.sliderMax, dir, microbitButton) + note)
  }

  /** The CAN messages among a list of driver calls, in order. */
  function Notifications(cmds: seq<Command>): seq<CanMessage> {
    if cmds == [] then [] else Notification(cmds[0]) + Notifications(cmds[1..])
  }

  function Notification(c: Command): seq<CanMessage> {
    if c.CanSend? then [c.msg] else []
  }

  lemma {:induction false} NotificationsAppend(a: seq<Command>, b: seq<Command>)
    ensures Notifications(a + b) == Notifications(a) + Notifications(b)
  {
    if a == [] {
      assert a + b == b;
    } else {
      var ab := a + b;
      assert ab[0] == a[0] && ab[1..] == a[1..] + b;
      NotificationsAppend(a[1..], b);
      calc {
        Notifications(ab);
        Notification(a[0]) + Notifications(a[1..] + b);
        Notification(a[0]) + (Notifications(a[1..]) + Notifications(b));
        (Notification(a[0]) + Notifications(a[1..])) + Notifications(b);
      }
    }
  }

  lemma {:induction false} NoNotifications(cmds: seq<Command>)
    requires forall c | c in cmds :: !c.CanSend?
    ensures Notifications(cmds) == []
  {
    if cmds != [] {
      assert cmds[0] in cmds;
      assert forall c | c in cmds[1..] :: c in cmds;
      NoNotifications(cmds[1..]);
    }
  }

  /**
    A tick sends exactly one CAN message when it detects a failure and none
    otherwise; the message carries the already decremented lives count.
   */
  lemma TickNotifiesOnFailure(st: GameState, ext: Externals, irLevel: U16, dir: AccDir, microbitButton: int)
    ensures
      var r := Tick(st, ext, irLevel, dir, microbitButton);
      Notifications(r.commands) ==
        if Detect(st, irLevel).failed then [CanMessage(ext.livesLeftId, 1, r.state.livesLeft % 0x100)] else []
    ensures
      var r := Tick(st, ext, irLevel, dir, microbitButton);
      Detect(st, irLevel).failed ==> r.state.livesLeft == Dec32(st.livesLeft)
  {
    var counted := Detect(st, irLevel);
    var disp := Dispatch(st, ext.sliderMax, dir, microbitButton);
    var note := if counted.failed then [CanSend(LivesLeftMessage(ext, counted.state.livesLeft), LIVES_LEFT_MAILBOX)] else [];
    NoNotifications(disp);
    NotificationsAppend(disp, note);
    if counted.failed {
      assert Notifications(note) == [LivesLeftMessage(ext, counted.state.livesLeft)] + Notifications([]);
    }
  }

  /** With no underflow guard, losing a life at zero lives wraps the counter and the payload. */
  lemma LifeLostAtZeroWraps(st: GameState, ext: Externals, irLevel: U16, dir: AccDir, microbitButton: int)
    requires st.livesLeft == 0 && !st.countingFlag && irLevel < IR_THRESHOLD
    ensures Tick(st, ext, irLevel, dir, microbitButton).state.livesLeft == 0xFFFF_FFFF
    ensures Notifications(Tick(st, ext, irLevel, dir, microbitButton).commands) == [CanMessage(ext.livesLeftId, 1, 0xFF)]
  {
    TickNotifiesOnFailure(st, ext, irLevel, dir, microbitButton);
  }
}
