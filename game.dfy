/**
  The game controller of node2/game.c as an object: its fields are the
  file-scope statics, and each method does what the C function of the same
  name does to them. The values read from the hardware (the infrared level,
  the micro:bit direction and button) are parameters; the calls made into the
  drivers are returned, in order, as `Command`s.
 */
module GameNode {
  import opened GameLogic

  class Game {
    /** Constants from headers that are not part of this model. */
    const ext: Externals

    var score: U32
    var livesLeft: U32
    var countingFlag: bool
    var controllerSelect: Controller
    var difficultySelect: Difficulty
    var userData: UserData

    function State(): GameState
      reads this
    {
      GameState(score, livesLeft, countingFlag, controllerSelect, difficultySelect, userData)
    }

    /** Program load: the statics hold their initialisers, everything else is zero. */
    constructor (ext: Externals)
      ensures this.ext == ext && State() == PowerOn()
    {
      this.ext := ext;
      score, livesLeft, countingFlag := 0, 0, false;
      controllerSelect, difficultySelect := SliderPosCtrl, Hard;
      userData := UserData(0, 0, 0, 0, 0, 0);
    }

    /** game_init: resets score and lives and pushes the HARD speed cap and gains. */
    method Init() returns (cmds: seq<Command>)
      modifies this
      ensures score == 0 && livesLeft == NUMBER_OF_LIVES
      ensures countingFlag == old(countingFlag) && controllerSelect == old(controllerSelect)
      ensures difficultySelect == old(difficultySelect) && userData == old(userData)
      ensures cmds == [MotorSetMicrobitSpeed(MB_SPEED_HARD), PidInit(HARD_GAINS, MAX_MOTOR_SPEED)]
      ensures State() == GameInit(old(State())) && cmds == INIT_COMMANDS
    {
      score := 0;
      livesLeft := NUMBER_OF_LIVES;
      cmds := [MotorSetMicrobitSpeed(MB_SPEED_HARD)];
      cmds := cmds + [PidInit(HARD_GAINS, MAX_MOTOR_SPEED)];
    }

    /** game_count_fails: the edge-triggered, debounced failure detector. */
    method CountFails(irLevel: U16) returns (failed: int)
      modifies this`livesLeft, this`countingFlag
      ensures old(irLevel < IR_THRESHOLD && !countingFlag) ==>
                failed == 1 && livesLeft == Dec32(old(livesLeft)) && countingFlag
      ensures old(irLevel < IR_THRESHOLD && countingFlag) ==>
                failed == 0 && livesLeft == old(livesLeft) && countingFlag
      ensures irLevel > IR_THRESHOLD ==>
                failed == 0 && livesLeft == old(livesLeft) && !countingFlag
      ensures irLevel == IR_THRESHOLD ==>
                failed == 0 && livesLeft == old(livesLeft) && countingFlag == old(countingFlag)
      ensures State() == Detect(old(State()), irLevel).state
      ensures failed == if Detect(old(State()), irLevel).failed then 1 else 0
    {
      if irLevel < IR_THRESHOLD && !countingFlag {
        livesLeft := Dec32(livesLeft);
        countingFlag := true;
        return 1;
      } else if irLevel > IR_THRESHOLD {
        countingFlag := false;
      }
      return 0;
    }

    /** game_set_controller */
    method SetController(controller: Controller)
      modifies this`controllerSelect
      ensures State() == old(State()).(controller := controller)
    {
      controllerSelect := controller;
    }

    /**
      game_set_difficulty: pushes the gains and the speed cap of a known
      difficulty, then stores the difficulty, known or not.
     */
    method SetDifficulty(difficulty: Difficulty) returns (cmds: seq<Command>)
      modifies this`difficultySelect
      ensures State() == old(State()).(difficulty := difficulty)
      ensures cmds == DifficultyCommands(difficulty)
    {
      match difficulty {
        case Hard =>
          cmds := [PidSetParameters(HARD_GAINS), MotorSetMicrobitSpeed(MB_SPEED_HARD)];
        case Extreme =>
          cmds := [PidSetParameters(EXTREME_GAINS), MotorSetMicrobitSpeed(MB_SPEED_EXTREME)];
        case Impossible =>
          cmds := [PidSetParameters(IMPOSSIBLE_GAINS), MotorSetMicrobitSpeed(MB_SPEED_IMPOSSIBLE)];
        case OtherDifficulty(_) =>
          cmds := [];
      }
      difficultySelect := difficulty;
    }

    /** game_set_user_data: replaces the stored snapshot with a scaled raw frame. */
    method SetUserData(scaling: Scaling, data: seq<Byte>)
      requires |data| >= 6
      modifies this`userData
      ensures State() == old(State()).(userData := ScaleFrame(scaling, data))
      ensures userData.buttonLeft == data[4] && userData.buttonRight == data[5]
    {
      var u := userData;
      u := u.(joystickX := scaling.joystickX(data[0]));
      u := u.(joystickY := scaling.joystickY(data[1]));
      u := u.(sliderLeft := scaling.sliderLeft(data[2]));
      u := u.(sliderRight := scaling.sliderRight(data[3]));
      u := u.(buttonLeft := data[4]);
      u := u.(buttonRight := data[5]);
      userData := u;
    }

    /**
      game_run: one timer tick. The mode picks the actuator commands, then the
      failure detector runs and a failure is reported on the CAN bus, and the
      score goes up by one in every case.
     */
    method Run(irLevel: U16, microbitDir: AccDir, microbitButton: int) returns (cmds: seq<Command>)
      modifies this
      ensures score == Inc32(old(score))
      ensures controllerSelect == old(controllerSelect) && difficultySelect == old(difficultySelect)
      ensures userData == old(userData)
      ensures Notifications(cmds) ==
                if Detect(old(State()), irLevel).failed
                then [CanMessage(ext.livesLeftId, 1, livesLeft % 0x100)] else []
      ensures State() == Tick(old(State()), ext, irLevel, microbitDir, microbitButton).state
      ensures cmds == Tick(old(State()), ext, irLevel, microbitDir, microbitButton).commands
    {
      ghost var st := State();
      cmds := [];
      match controllerSelect {
        case SliderPosCtrl =>
          if difficultySelect == Impossible {
            cmds := cmds + [MotorRunSlider(ext.sliderMax - userData.sliderRight)];
          } else {
            cmds := cmds + [MotorRunSlider(userData.sliderRight)];
          }
          cmds := cmds + [ServoSetPosition(userData.joystickX)];
          cmds := cmds + [SolenoidRunButton(userData.buttonRight)];
        case JoystickSpeedCtrl =>
          if difficultySelect == Impossible {
            cmds := cmds + [MotorRunJoystick(-userData.joystickX)];
          } else {
            cmds := cmds + [MotorRunJoystick(userData.joystickX)];
          }
          cmds := cmds + [ServoSetPosition(2 * (userData.sliderRight - 50))];
          cmds := cmds + [SolenoidRunButton(userData.buttonRight)];
        case MicrobitSpeedCtrl =>
          var direction := microbitDir;
          if difficultySelect == Impossible {
            if direction == AccRight {
              direction := AccLeft;
            } else if direction == AccLeft {
              direction := AccRight;
            }
          }
          cmds := cmds + [MotorRunMicrobit(direction)];
          cmds := cmds + [ServoSetPosition(userData.joystickX)];
          cmds := cmds + [SolenoidRunButton(microbitButton)];
          // falls through into the empty default branch
        case OtherController(_) =>
      }
      assert cmds == Dispatch(st, ext.sliderMax, microbitDir, microbitButton);

      var failed := CountFails(irLevel);
      if failed != 0 {
        cmds := cmds + [CanSend(CanMessage(ext.livesLeftId, 1, livesLeft % 0x100), 0)];
      }

      score := Inc32(score);
      ghost var r := Tick(st, ext, irLevel, microbitDir, microbitButton);
      assert cmds == r.commands;
      assert State() == r.state;
      TickNotifiesOnFailure(st, ext, irLevel, microbitDir, microbitButton);
    }

    /** game_get_score: the unsigned score returned as a C `int`. */
    method GetScore() returns (s: int)
      ensures s == AsInt32(score)
      ensures score < 0x8000_0000 ==> s == score
    {
      s := if score < 0x8000_0000 then score else score - WORD;
    }

    /** game_reset_score */
    method ResetScore()
      modifies this`score
      ensures State() == old(State()).(score := 0)
    {
      score := 0;
    }

    /** game_reset_lives_left: restores INITIAL_LIVES, which need not be NUMBER_OF_LIVES. */
    method ResetLivesLeft()
      modifies this`livesLeft
      ensures State() == old(State()).(livesLeft := ext.initialLives)
    {
      livesLeft := ext.initialLives;
    }
  }

  /**
    A session as the other node drives it: the methods together keep the
    score counting ticks, and a broken beam held over several ticks costs one
    life and sends one message.
   */
  method HeldObstruction(ext: Externals, low: U16) returns (g: Game, c1: seq<Command>, c2: seq<Command>, c3: seq<Command>)
    requires low < IR_THRESHOLD
    ensures g.score == 3 && g.livesLeft == 2 && g.countingFlag
    ensures Notifications(c1) == [CanMessage(ext.livesLeftId, 1, 2)]
    ensures Notifications(c2) == [] && Notifications(c3) == []
  {
    g := new Game(ext);
    var init := g.Init();
    c1 := g.Run(low, AccLeft, 0);
    c2 := g.Run(low, AccLeft, 0);
    c3 := g.Run(low, AccLeft, 0);
  }
}
