/**
  Properties of the game controller over many calls: the debounce of the
  failure detector over a run of readings, the score over a run of ticks, and
  the lives-left notifications over any interleaving of calls into the
  controller.
 */
module GameRuns {
  import opened GameLogic

  function Last<T>(s: seq<T>): T
    requires |s| > 0
  {
    s[|s| - 1]
  }

  function DropLast<T>(s: seq<T>): seq<T>
    requires |s| > 0
  {
    s[..|s| - 1]
  }

  lemma AppendOne<T>(s: seq<T>, x: T)
    ensures DropLast(s + [x]) == s && Last(s + [x]) == x
  {
    assert (s + [x])[..|s|] == s;
  }

  // ---------------------------------------------------------------------------
  // The failure detector over a run of readings

  /** The state after the detector has seen `levels`, oldest first. */
  function Detects(st: GameState, levels: seq<U16>): GameState
    decreases |levels|
  {
    if levels == [] then st else Detect(Detects(st, DropLast(levels)), Last(levels)).state
  }

  lemma {:induction false} DetectsAppend(st: GameState, xs: seq<U16>, ys: seq<U16>)
    ensures Detects(st, xs + ys) == Detects(Detects(st, xs), ys)
    decreases |ys|
  {
    if ys == [] {
      assert xs + ys == xs;
    } else {
      assert xs + ys == (xs + DropLast(ys)) + [Last(ys)];
      AppendOne(xs + DropLast(ys), Last(ys));
      DetectsAppend(st, xs, DropLast(ys));
    }
  }

  ghost predicate AllBelow(levels: seq<U16>) {
    forall i | 0 <= i < |levels| :: levels[i] < IR_THRESHOLD
  }

  /** Any run of K >= 1 readings below the threshold, starting unlatched, costs exactly one life. */
  lemma {:induction false} ObstructionCostsOneLife(st: GameState, levels: seq<U16>)
    requires |levels| >= 1 && AllBelow(levels) && !st.countingFlag
    ensures Detects(st, levels) == st.(livesLeft := Dec32(st.livesLeft), countingFlag := true)
  {
    if |levels| == 1 {
      assert DropLast(levels) == [];
    } else {
      assert forall i | 0 <= i < |levels| - 1 :: DropLast(levels)[i] == levels[i];
      ObstructionCostsOneLife(st, DropLast(levels));
    }
  }

  /** While latched, any run of readings below the threshold changes nothing. */
  lemma {:induction false} LatchedObstructionIsFree(st: GameState, levels: seq<U16>)
    requires AllBelow(levels) && st.countingFlag
    ensures Detects(st, levels) == st
  {
    if levels != [] {
      assert forall i | 0 <= i < |levels| - 1 :: DropLast(levels)[i] == levels[i];
      LatchedObstructionIsFree(st, DropLast(levels));
    }
  }

  /**
    Whether a reading below the threshold would be counted after `levels`,
    when `armed` says whether it would have been counted before them: the last
    reading off the threshold decides (above arms, below disarms); readings
    exactly at the threshold do not matter.
   */
  ghost predicate ArmedAfter(armed: bool, levels: seq<U16>) {
    || (armed && forall j | 0 <= j < |levels| :: levels[j] == IR_THRESHOLD)
    || exists i | 0 <= i < |levels| ::
         levels[i] > IR_THRESHOLD && forall j | i < j < |levels| :: levels[j] == IR_THRESHOLD
  }

  /** The number of distinct obstructions in `levels`: low readings that find the detector armed. */
  ghost function Onsets(armed: bool, levels: seq<U16>): nat
    decreases |levels|
  {
    if levels == [] then 0
    else
      Onsets(armed, DropLast(levels))
      + (if Last(levels) < IR_THRESHOLD && ArmedAfter(armed, DropLast(levels)) then 1 else 0)
  }

  lemma ArmedAfterAppend(armed: bool, levels: seq<U16>, x: U16)
    ensures ArmedAfter(armed, levels + [x]) <==>
              if x == IR_THRESHOLD then ArmedAfter(armed, levels) else x > IR_THRESHOLD
  {
    var s := levels + [x];
    assert forall j | 0 <= j < |levels| :: s[j] == levels[j];
    if x == IR_THRESHOLD {
      if ArmedAfter(armed, levels) && !(armed && forall j | 0 <= j < |levels| :: levels[j] == IR_THRESHOLD) {
        var i :| 0 <= i < |levels| && levels[i] > IR_THRESHOLD && forall j | i < j < |levels| :: levels[j] == IR_THRESHOLD;
        assert s[i] > IR_THRESHOLD && forall j | i < j < |s| :: s[j] == IR_THRESHOLD;
      }
      if ArmedAfter(armed, s) && !(armed && forall j | 0 <= j < |s| :: s[j] == IR_THRESHOLD) {
        var i :| 0 <= i < |s| && s[i] > IR_THRESHOLD && forall j | i < j < |s| :: s[j] == IR_THRESHOLD;
        assert levels[i] > IR_THRESHOLD && forall j | i < j < |levels| :: levels[j] == IR_THRESHOLD;
      }
    } else if x > IR_THRESHOLD {
      assert s[|levels|] > IR_THRESHOLD;
    } else {
      assert s[|s| - 1] != IR_THRESHOLD;
    }
  }

  lemma DecOfWrapped(a: int)
    ensures Dec32(a % WORD) == (a - 1) % WORD
  {
  }

  lemma IncOfWrapped(a: int)
    ensures Inc32(a % WORD) == (a + 1) % WORD
  {
  }

  /**
    Over any sequence of readings the detector loses exactly one life per
    distinct obstruction (wrapping at zero), and ends latched exactly when
    the last reading off the threshold was below it.
   */
  lemma {:induction false} DetectsCountsOnsets(st: GameState, levels: seq<U16>)
    ensures Detects(st, levels) ==
      st.(livesLeft := (st.livesLeft - Onsets(!st.countingFlag, levels)) % WORD,
          countingFlag := !ArmedAfter(!st.countingFlag, levels))
    decreases |levels|
  {
    if levels == [] {
      assert ArmedAfter(!st.countingFlag, levels) == !st.countingFlag;
    } else {
      var p, x := DropLast(levels), Last(levels);
      assert levels == p + [x];
      DetectsCountsOnsets(st, p);
      ArmedAfterAppend(!st.countingFlag, p, x);
      DecOfWrapped(st.livesLeft - Onsets(!st.countingFlag, p));
    }
  }

  /** One obstruction episode: a reading above the threshold, then K >= 1 readings below it. */
  ghost predicate IsObstruction(run: seq<U16>) {
    |run| >= 2 && run[0] > IR_THRESHOLD && forall i | 1 <= i < |run| :: run[i] < IR_THRESHOLD
  }

  function Flatten(runs: seq<seq<U16>>): seq<U16>
    decreases |runs|
  {
    if runs == [] then [] else Flatten(DropLast(runs)) + Last(runs)
  }

  /** Readings that oscillate across the threshold lose one life per below-threshold run. */
  lemma {:induction false} EachObstructionCostsOneLife(st: GameState, runs: seq<seq<U16>>)
    requires forall k | 0 <= k < |runs| :: IsObstruction(runs[k])
    ensures Detects(st, Flatten(runs)).livesLeft == (st.livesLeft - |runs|) % WORD
    ensures runs != [] ==> Detects(st, Flatten(runs)).countingFlag
    decreases |runs|
  {
    if runs != [] {
      var before, run := DropLast(runs), Last(runs);
      assert forall k | 0 <= k < |before| :: before[k] == runs[k];
      EachObstructionCostsOneLife(st, before);
      var s0 := Detects(st, Flatten(before));
      DetectsAppend(st, Flatten(before), run);
      assert run == [run[0]] + run[1..];
      DetectsAppend(s0, [run[0]], run[1..]);
      assert DropLast([run[0]]) == [];
      var s1 := Detects(s0, [run[0]]);
      assert s1 == s0.(countingFlag := false);
      ObstructionCostsOneLife(s1, run[1..]);
      DecOfWrapped(st.livesLeft - |before|);
    }
  }

  // ---------------------------------------------------------------------------
  // Runs of calls into the controller

  /** A call into game.c, with the values it reads from the hardware. */
  datatype Event =
    | TickEvent(irLevel: U16, dir: AccDir, microbitButton: int)
    | CountFailsEvent(irLevel: U16)
    | InitEvent
    | SetControllerEvent(controller: Controller)
    | SetDifficultyEvent(difficulty: Difficulty)
    | SetUserDataEvent(userData: UserData)
    | ResetScoreEvent
    | ResetLivesEvent

  function Step(st: GameState, ext: Externals, e: Event): TickResult {
    match e
    case TickEvent(level, dir, button) => Tick(st, ext, level, dir, button)
    case CountFailsEvent(level) => TickResult(Detect(st, level).state, [])
    case InitEvent => TickResult(GameInit(st), INIT_COMMANDS)
    case SetControllerEvent(c) => TickResult(st.(controller := c), [])
    case SetDifficultyEvent(d) => TickResult(st.(difficulty := d), DifficultyCommands(d))
    case SetUserDataEvent(u) => TickResult(st.(userData := u), [])
    case ResetScoreEvent => TickResult(st.(score := 0), [])
    case ResetLivesEvent => TickResult(st.(livesLeft := ext.initialLives), [])
  }

  /** The state after `events`, oldest first, and every driver call they made, in order. */
  function Replay(st: GameState, ext: Externals, events: seq<Event>): TickResult
    decreases |events|
  {
    if events == [] then TickResult(st, [])
    else
      var before := Replay(st, ext, DropLast(events));
      var r := Step(before.state, ext, Last(events));
      TickResult(r.state, before.commands + r.commands)
  }

  function TickCount(events: seq<Event>): nat
    decreases |events|
  {
    if events == [] then 0 else TickCount(DropLast(events)) + (if Last(events).TickEvent? then 1 else 0)
  }

  /** Whether `e` runs the failure detector: a tick does, and so does a direct game_count_fails call. */
  predicate ReadsBeam(e: Event) {
    e.TickEvent? || e.CountFailsEvent?
  }

  /** The infrared readings the failure detector sees during `events`, in order. */
  function Levels(events: seq<Event>): seq<U16>
    decreases |events|
  {
    if events == [] then []
    else Levels(DropLast(events)) + (if ReadsBeam(Last(events)) then [Last(events).irLevel] else [])
  }

  /**
    The distinct obstructions among the readings of `events` that come from
    ticks (`byTick`) or from direct game_count_fails calls (`!byTick`).
   */
  ghost function OnsetsAt(armed: bool, events: seq<Event>, byTick: bool): nat
    decreases |events|
  {
    if events == [] then 0
    else
      var e := Last(events);
      OnsetsAt(armed, DropLast(events), byTick)
      + (if ReadsBeam(e) && e.TickEvent? == byTick && e.irLevel < IR_THRESHOLD
            && ArmedAfter(armed, Levels(DropLast(events))) then 1 else 0)
  }

  /**
    Every obstruction the detector sees is met either by a tick or by a direct
    call, and without direct calls all of them are met by ticks.
   */
  lemma {:induction false} OnsetsSplit(armed: bool, events: seq<Event>)
    ensures OnsetsAt(armed, events, true) + OnsetsAt(armed, events, false) == Onsets(armed, Levels(events))
    ensures (forall i | 0 <= i < |events| :: !events[i].CountFailsEvent?) ==> OnsetsAt(armed, events, false) == 0
    decreases |events|
  {
    if events != [] {
      var p, e := DropLast(events), Last(events);
      assert forall i | 0 <= i < |p| :: p[i] == events[i];
      assert e == events[|events| - 1];
      OnsetsSplit(armed, p);
      if ReadsBeam(e) {
        AppendOne(Levels(p), e.irLevel);
      } else {
        assert Levels(events) == Levels(p);
      }
    }
  }

  ghost predicate NoScoreReset(events: seq<Event>) {
    forall i | 0 <= i < |events| :: !events[i].InitEvent? && !events[i].ResetScoreEvent?
  }

  ghost predicate NoLivesReset(events: seq<Event>) {
    forall i | 0 <= i < |events| :: !events[i].InitEvent? && !events[i].ResetLivesEvent?
  }

  /** Without a reset, the score counts the ticks, modulo 2^32, whatever else happens between them. */
  lemma {:induction false} ScoreCountsTicks(st: GameState, ext: Externals, events: seq<Event>)
    requires NoScoreReset(events)
    ensures Replay(st, ext, events).state.score == (st.score + TickCount(events)) % WORD
    decreases |events|
  {
    if events != [] {
      var p := DropLast(events);
      assert forall i | 0 <= i < |p| :: p[i] == events[i];
      assert Last(events) == events[|events| - 1];
      ScoreCountsTicks(st, ext, p);
      var before := Replay(st, ext, p);
      if Last(events).TickEvent? {
        IncOfWrapped(st.score + TickCount(p));
        assert Replay(st, ext, events).state.score == Inc32(before.state.score);
      } else {
        assert Replay(st, ext, events).state.score == before.state.score;
      }
    }
  }

  /**
    The latch follows the detector's readings alone (those of the ticks and of
    direct game_count_fails calls), and without a lives reset the lives follow
    the detector run on those readings.
   */
  lemma {:induction false} ReplayFollowsDetector(st: GameState, ext: Externals, events: seq<Event>)
    ensures Replay(st, ext, events).state.countingFlag == Detects(st, Levels(events)).countingFlag
    ensures NoLivesReset(events) ==>
      Replay(st, ext, events).state.livesLeft == Detects(st, Levels(events)).livesLeft
    decreases |events|
  {
    if events != [] {
      var p, e := DropLast(events), Last(events);
      assert forall i | 0 <= i < |p| :: p[i] == events[i];
      assert e == events[|events| - 1];
      ReplayFollowsDetector(st, ext, p);
      if ReadsBeam(e) {
        AppendOne(Levels(p), e.irLevel);
      } else {
        assert Levels(events) == Levels(p);
      }
    }
  }

  lemma StepNotifications(st: GameState, ext: Externals, e: Event)
    ensures |Notifications(Step(st, ext, e).commands)| ==
              if e.TickEvent? && Detect(st, e.irLevel).failed then 1 else 0
  {
    match e
    case TickEvent(level, dir, button) =>
      TickNotifiesOnFailure(st, ext, level, dir, button);
    case InitEvent =>
      NoNotifications(INIT_COMMANDS);
    case SetDifficultyEvent(d) =>
      NoNotifications(DifficultyCommands(d));
    case _ =>
  }

  /**
    Over any interleaving of calls, the number of lives-left messages sent
    equals the number of distinct obstructions met by ticks; one met by a
    direct game_count_fails call costs a life but sends nothing.
   */
  lemma {:induction false} NotificationsCountOnsets(st: GameState, ext: Externals, events: seq<Event>)
    ensures |Notifications(Replay(st, ext, events).commands)| == OnsetsAt(!st.countingFlag, events, true)
    decreases |events|
  {
    if events != [] {
      var p, e := DropLast(events), Last(events);
      var before := Replay(st, ext, p);
      NotificationsCountOnsets(st, ext, p);
      NotificationsAppend(before.commands, Step(before.state, ext, e).commands);
      StepNotifications(before.state, ext, e);
      if e.TickEvent? {
        ReplayFollowsDetector(st, ext, p);
        DetectsCountsOnsets(st, Levels(p));
      }
    }
  }

  /**
    Without a lives reset, every life lost is either reported on the CAN bus
    or lost to a direct game_count_fails call; with no direct calls, the
    messages count the obstructions in all the readings.
   */
  lemma LostLivesAreReportedOrDirect(st: GameState, ext: Externals, events: seq<Event>)
    ensures
      var r := Replay(st, ext, events);
      NoLivesReset(events) ==>
        r.state.livesLeft ==
          (st.livesLeft - |Notifications(r.commands)| - OnsetsAt(!st.countingFlag, events, false)) % WORD
    ensures (forall i | 0 <= i < |events| :: !events[i].CountFailsEvent?) ==>
      |Notifications(Replay(st, ext, events).commands)| == Onsets(!st.countingFlag, Levels(events))
  {
    ReplayFollowsDetector(st, ext, events);
    DetectsCountsOnsets(st, Levels(events));
    OnsetsSplit(!st.countingFlag, events);
    NotificationsCountOnsets(st, ext, events);
  }

  /**
    Starting from game_init with HARD and slider control: a tick with the beam
    clear drives the motor to the slider, a tick with the beam broken loses a
    life and reports 2, and further broken-beam ticks lose nothing.
   */
  lemma SliderScenario(ext: Externals, u: UserData, low: U16)
    requires u.sliderRight == 80 && low < IR_THRESHOLD
    ensures
      var t1 := Tick(GameInit(PowerOn()).(userData := u), ext, 2000, AccLeft, 0);
      var t2 := Tick(t1.state, ext, low, AccLeft, 0);
      var t3 := Tick(t2.state, ext, low, AccLeft, 0);
      && t1.commands[0] == MotorRunSlider(80) && t1.state.livesLeft == 3 && t1.state.score == 1
      && Notifications(t1.commands) == []
      && t2.state.livesLeft == 2 && t2.state.score == 2
      && Notifications(t2.commands) == [CanMessage(ext.livesLeftId, 1, 2)]
      && t3.state.livesLeft == 2 && t3.state.score == 3
      && Notifications(t3.commands) == []
  {
    var t1 := Tick(GameInit(PowerOn()).(userData := u), ext, 2000, AccLeft, 0);
    var t2 := Tick(t1.state, ext, low, AccLeft, 0);
    TickNotifiesOnFailure(GameInit(PowerOn()).(userData := u), ext, 2000, AccLeft, 0);
    TickNotifiesOnFailure(t1.state, ext, low, AccLeft, 0);
    TickNotifiesOnFailure(t2.state, ext, low, AccLeft, 0);
  }
}
