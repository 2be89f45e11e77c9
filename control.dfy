/** RemoteControlCozmo from control.py: the controller object that latches
    key and mouse intent, recomputes the wheel, head and lift commands, and
    runs the bounded queue of speech and animation requests; and the robot
    it drives, seen only through the calls it receives. */
module Control {
  import opened Util
  import opened Remap
  import opened Actuation
  import opened ActionQueue
  import opened AnimTable

  /** Mouse-look is off when the controller starts. */
  const MouseLookEnabledByDefault: bool := false

  /** The robot as the controller sees it: two sensor readings, whether it is
      busy with an action (speech and animation requests then raise
      RobotBusy), its animation list, and the log of every call it receives. */
  class Robot {
    const animNames: seq<string>
    var isOnCharger: bool
    var headAngle: real
    var busy: bool
    ghost var log: seq<Command>

    constructor (animNames: seq<string>, isOnCharger: bool, headAngle: real, busy: bool)
      ensures this.animNames == animNames && this.isOnCharger == isOnCharger
      ensures this.headAngle == headAngle && this.busy == busy
      ensures log == []
    {
      this.animNames := animNames;
      this.isOnCharger := isOnCharger;
      this.headAngle := headAngle;
      this.busy := busy;
      log := [];
    }

    method DriveWheels(lSpeed: real, rSpeed: real, lAccel: real, rAccel: real)
      modifies this`log
      ensures log == old(log) + [Command.DriveWheels(lSpeed, rSpeed, lAccel, rAccel)]
    {
      log := log + [Command.DriveWheels(lSpeed, rSpeed, lAccel, rAccel)];
    }

    method MoveHead(vel: real)
      modifies this`log
      ensures log == old(log) + [Command.MoveHead(vel)]
    {
      log := log + [Command.MoveHead(vel)];
    }

    method MoveLift(vel: real)
      modifies this`log
      ensures log == old(log) + [Command.MoveLift(vel)]
    {
      log := log + [Command.MoveLift(vel)];
    }

    /** Returns false where the SDK raises RobotBusy. */
    method SayText(text: string) returns (accepted: bool)
      modifies this`log
      ensures accepted == !busy
      ensures log == old(log) + [Command.SayText(text)]
    {
      log := log + [Command.SayText(text)];
      accepted := !busy;
    }

    /** Returns false where the SDK raises RobotBusy. */
    method PlayAnim(name: string) returns (accepted: bool)
      modifies this`log
      ensures accepted == !busy
      ensures log == old(log) + [Command.PlayAnim(name)]
    {
      log := log + [Command.PlayAnim(name)];
      accepted := !busy;
    }

    /** drive_off_charger_contacts().wait_for_completed(); false where it raises RobotBusy. */
    method DriveOffChargerContacts() returns (accepted: bool)
      modifies this`log
      ensures accepted == !busy
      ensures log == old(log) + [Command.DriveOffCharger]
    {
      log := log + [Command.DriveOffCharger];
      accepted := !busy;
    }
  }

  /** key_code_to_anim_name on the controller's two animation fields. Both
      lookups are Python list indexing, so an entry set out of range makes it
      raise IndexError (None). */
  function KeyCodeToAnimName(animNames: seq<string>, animIndexForKey: seq<int>, keyCode: int): (name: Option<string>)
    ensures name.Some? ==> name.value in animNames
    ensures !(-|animIndexForKey| <= keyCode - '0' as int < |animIndexForKey|) ==> name.None?
    ensures -|animIndexForKey| <= keyCode - '0' as int < |animIndexForKey| ==>
              var entry := animIndexForKey[(keyCode - '0' as int) % |animIndexForKey|];
              (name.Some? <==> -|animNames| <= entry < |animNames|)
              && (name.Some? ==> name == Some(animNames[entry % |animNames|]))
  {
    match PyIndex(|animIndexForKey|, keyCode - '0' as int)
    case None => None
    case Some(keyNum) =>
      match PyIndex(|animNames|, animIndexForKey[keyNum])
      case None => None
      case Some(animNum) => Some(animNames[animNum])
  }

  /** With the table the constructor builds, digit key k plays its default
      animation when the robot has it, and otherwise the k-th animation of
      the list, or fails with IndexError when the list is shorter than that. */
  lemma DigitKeyAnimation(animNames: seq<string>, animIndexForKey: seq<int>, k: nat)
    requires k < KeyCount && |animIndexForKey| == KeyCount
    requires forall j :: 0 <= j < KeyCount ==> animIndexForKey[j] == DefaultAnimIndex(animNames, j)
    ensures KeyCodeToAnimName(animNames, animIndexForKey, '0' as int + k)
            == if DefaultAnimsForKeys[k] in animNames then Some(DefaultAnimsForKeys[k])
               else if k < |animNames| then Some(animNames[k])
               else None
  {
    assert '0' as int + k - '0' as int == k;
  }

  /** What the release half of handle_key does: whether it completed, the
      action queue after it, and the robot calls it made. */
  datatype Release = Release(ok: bool, queue: seq<Action>, calls: seq<Command>)

  /** Only releasing a digit key does anything: the key's animation is
      queued and the queue ticked once (play_animation); a lookup that raises
      IndexError stops handle_key before anything is queued. */
  function ReleaseEffect(animNames: seq<string>, animIndexForKey: seq<int>, keyCode: int, isKeyDown: bool,
                         q: seq<Action>, accepted: bool): (e: Release)
    ensures !e.ok ==> e.queue == q && e.calls == []
    ensures isKeyDown || !('0' as int <= keyCode <= '9' as int) ==> e == Release(true, q, [])
    ensures !isKeyDown && '0' as int <= keyCode <= '9' as int ==>
              (e.ok <==> KeyCodeToAnimName(animNames, animIndexForKey, keyCode).Some?)
    ensures !isKeyDown && '0' as int <= keyCode <= '9' as int && e.ok ==>
              var queued := Enqueued(q, Action(ActionFunc.TryPlayAnim, KeyCodeToAnimName(animNames, animIndexForKey, keyCode).value));
              e.queue == Tick(queued, accepted) && e.calls == [Attempt(queued[0])]
  {
    if isKeyDown || !('0' as int <= keyCode <= '9' as int) then Release(true, q, [])
    else
      match KeyCodeToAnimName(animNames, animIndexForKey, keyCode)
      case None => Release(false, q, [])
      case Some(name) =>
        var queued := Enqueued(q, Action(ActionFunc.TryPlayAnim, name));
        Release(true, Tick(queued, accepted), [Attempt(queued[0])])
  }

  class RemoteControl {
    const robot: Robot

    var driveForwards: bool
    var driveBack: bool
    var turnLeft: bool
    var turnRight: bool
    var liftUp: bool
    var liftDown: bool
    var headUp: bool
    var headDown: bool

    var goFast: bool
    var goSlow: bool

    var isMouseLookEnabled: bool
    var mouseDir: real

    var animNames: seq<string>
    var animIndexForKey: seq<int>

    var actionQueue: seq<Action>
    var textToSay: string

    /** Ten key entries, at most eleven queued actions, and the mouse-look
        bias inside its range and zero while mouse-look is off. */
    ghost predicate Valid()
      reads this
    {
      && |animIndexForKey| == KeyCount
      && |actionQueue| <= MaxQueue
      && -MouseSensitivity <= mouseDir <= MouseSensitivity
      && (!isMouseLookEnabled ==> mouseDir == 0.0)
    }

    /** The fields the actuation code reads. */
    function Input(): InputState
      reads this`driveForwards, this`driveBack, this`turnLeft, this`turnRight
      reads this`liftUp, this`liftDown, this`headUp, this`headDown
      reads this`goFast, this`goSlow, this`isMouseLookEnabled, this`mouseDir
    {
      InputState(driveForwards, driveBack, turnLeft, turnRight,
                 liftUp, liftDown, headUp, headDown,
                 goFast, goSlow, isMouseLookEnabled, mouseDir)
    }

    /** __init__: all intent cleared, the sorted and filtered animation list,
        the default key table, an empty queue. */
    constructor (coz: Robot)
      ensures Valid() && robot == coz
      ensures Input() == InputState(false, false, false, false, false, false, false, false,
                                    false, false, MouseLookEnabledByDefault, 0.0)
      ensures animNames == Filtered(SortNames(coz.animNames))
      ensures forall k :: 0 <= k < KeyCount ==> animIndexForKey[k] == DefaultAnimIndex(animNames, k)
      ensures actionQueue == [] && textToSay == "Hi I'm Cozmo"
    {
      var allAnimNames := SortNames(coz.animNames);
      var names := FilterBadAnims(allAnimNames);
      var table := BuildAnimIndexTable(names);
      robot := coz;
      driveForwards, driveBack, turnLeft, turnRight := false, false, false, false;
      liftUp, liftDown, headUp, headDown := false, false, false, false;
      goFast, goSlow := false, false;
      isMouseLookEnabled := MouseLookEnabledByDefault;
      mouseDir := 0.0;
      animNames := names;
      animIndexForKey := table;
      actionQueue := [];
      textToSay := "Hi I'm Cozmo";
    }

    /** set_anim: Python list assignment, so a key index outside -10..9
        raises IndexError (ok == false) and changes nothing. */
    method SetAnim(keyIndex: int, animIndex: int) returns (ok: bool)
      requires Valid()
      modifies this`animIndexForKey
      ensures Valid()
      ensures ok <==> -(KeyCount as int) <= keyIndex < KeyCount
      ensures ok ==> animIndexForKey == old(animIndexForKey)[PyIndex(KeyCount, keyIndex).value := animIndex]
      ensures !ok ==> animIndexForKey == old(animIndexForKey)
    {
      match PyIndex(|animIndexForKey|, keyIndex) {
        case None =>
          ok := false;
        case Some(k) =>
          animIndexForKey := animIndexForKey[k := animIndex];
          ok := true;
      }
    }

    // ---------------------------------------------------------- actuation

    method UpdateLift()
      modifies robot`log
      ensures robot.log == old(robot.log) + LiftCommands(Input())
    {
      var liftSpeed := PickSpeed(Input(), 8.0, 4.0, 2.0);
      var liftVel := (Bit(liftUp) - Bit(liftDown)) as real * liftSpeed;
      robot.MoveLift(liftVel);
    }

    method UpdateHead()
      modifies robot`log
      ensures robot.log == old(robot.log) + HeadCommands(Input())
    {
      if !isMouseLookEnabled {
        var headSpeed := PickSpeed(Input(), 2.0, 1.0, 0.5);
        var headVel := (Bit(headUp) - Bit(headDown)) as real * headSpeed;
        robot.MoveHead(headVel);
      }
    }

    method UpdateDriving()
      modifies robot`log
      ensures robot.log == old(robot.log) + DrivingCommands(Input(), robot.isOnCharger)
    {
      var driveDir := Bit(driveForwards) - Bit(driveBack);
      if driveDir as real > 0.1 && robot.isOnCharger {
        // a busy robot refuses; the next drive impulse tries again
        var _ := robot.DriveOffChargerContacts();
      }
      var turnDir := (Bit(turnRight) - Bit(turnLeft)) as real + mouseDir;
      if driveDir < 0 {
        turnDir := -turnDir;
      }
      var forwardSpeed := PickSpeed(Input(), 150.0, 75.0, 50.0);
      var turnSpeed := PickSpeed(Input(), 100.0, 50.0, 30.0);
      var lWheelSpeed := driveDir as real * forwardSpeed + turnSpeed * turnDir;
      var rWheelSpeed := driveDir as real * forwardSpeed - turnSpeed * turnDir;
      robot.DriveWheels(lWheelSpeed, rWheelSpeed, lWheelSpeed * 4.0, rWheelSpeed * 4.0);
    }

    // ------------------------------------------------------- input events

    /** handle_mouse: ignored unless mouse-look is on; otherwise the
        horizontal position sets the turn bias and driving is recomputed,
        then the head is driven towards the angle the vertical position asks for. */
    method HandleMouse(mouseX: real, mouseY: real, deltaX: real, deltaY: real, isButtonDown: bool)
      requires Valid()
      modifies this`mouseDir, robot`log
      ensures Valid()
      ensures !isMouseLookEnabled ==> mouseDir == old(mouseDir) && robot.log == old(robot.log)
      ensures isMouseLookEnabled ==>
                && mouseDir == MouseTurn(mouseX)
                && robot.log == old(robot.log) + DrivingCommands(Input(), robot.isOnCharger)
                                + [Command.MoveHead(MouseHeadVelocity(mouseY, robot.headAngle))]
    {
      if isMouseLookEnabled {
        var mouseSensitivity := 1.5;
        mouseDir := RemapToRange(mouseX, 0.0, 1.0, -mouseSensitivity, mouseSensitivity);
        UpdateDriving();
        var desiredHeadAngle := RemapToRange(mouseY, 0.0, 1.0, 45.0, -25.0);
        var headAngleDelta := desiredHeadAngle - robot.headAngle;
        var headVel := headAngleDelta * 0.03;
        robot.MoveHead(headVel);
      }
    }

    /** set_mouse_look_enabled: disabling cancels the turn bias, and only a
        real switch from on to off recomputes driving and the head. */
    method SetMouseLookEnabled(enabled: bool)
      requires Valid()
      modifies this`isMouseLookEnabled, this`mouseDir, robot`log
      ensures Valid()
      ensures isMouseLookEnabled == enabled
      ensures mouseDir == if enabled then old(mouseDir) else 0.0
      ensures robot.log == old(robot.log) +
                if !enabled && old(isMouseLookEnabled)
                then DrivingCommands(Input(), robot.isOnCharger) + HeadCommands(Input())
                else []
    {
      var wasMouseLookEnabled := isMouseLookEnabled;
      isMouseLookEnabled := enabled;
      if !enabled {
        mouseDir := 0.0;
        if wasMouseLookEnabled {
          UpdateDriving();
          UpdateHead();
        }
      }
    }

    /** handle_key's driving chain: W, S, A and D latch their flag; any
        other key leaves the flags and asks for a refresh only when a
        modifier changed. */
    method SetDrivingFlag(keyCode: int, isKeyDown: bool, speedChanged: bool) returns (updateDriving: bool)
      modifies this`driveForwards, this`driveBack, this`turnLeft, this`turnRight
      ensures driveForwards == Follow(old(driveForwards), keyCode == 'W' as int, isKeyDown)
      ensures driveBack == Follow(old(driveBack), keyCode == 'S' as int, isKeyDown)
      ensures turnLeft == Follow(old(turnLeft), keyCode == 'A' as int, isKeyDown)
      ensures turnRight == Follow(old(turnRight), keyCode == 'D' as int, isKeyDown)
      ensures updateDriving == (speedChanged || BoundTo(keyCode, Driving))
    {
      updateDriving := true;
      if keyCode == 'W' as int {
        driveForwards := isKeyDown;
      } else if keyCode == 'S' as int {
        driveBack := isKeyDown;
      } else if keyCode == 'A' as int {
        turnLeft := isKeyDown;
      } else if keyCode == 'D' as int {
        turnRight := isKeyDown;
      } else if !speedChanged {
        updateDriving := false;
      }
    }

    /** handle_key's lift chain: R and F latch their flag. */
    method SetLiftFlag(keyCode: int, isKeyDown: bool, speedChanged: bool) returns (updateLift: bool)
      modifies this`liftUp, this`liftDown
      ensures liftUp == Follow(old(liftUp), keyCode == 'R' as int, isKeyDown)
      ensures liftDown == Follow(old(liftDown), keyCode == 'F' as int, isKeyDown)
      ensures updateLift == (speedChanged || BoundTo(keyCode, Lift))
    {
      updateLift := true;
      if keyCode == 'R' as int {
        liftUp := isKeyDown;
      } else if keyCode == 'F' as int {
        liftDown := isKeyDown;
      } else if !speedChanged {
        updateLift := false;
      }
    }

    /** handle_key's head chain: T and G latch their flag. */
    method SetHeadFlag(keyCode: int, isKeyDown: bool, speedChanged: bool) returns (updateHead: bool)
      modifies this`headUp, this`headDown
      ensures headUp == Follow(old(headUp), keyCode == 'T' as int, isKeyDown)
      ensures headDown == Follow(old(headDown), keyCode == 'G' as int, isKeyDown)
      ensures updateHead == (speedChanged || BoundTo(keyCode, Head))
    {
      updateHead := true;
      if keyCode == 'T' as int {
        headUp := isKeyDown;
      } else if keyCode == 'G' as int {
        headDown := isKeyDown;
      } else if !speedChanged {
        updateHead := false;
      }
    }

    /** The flag half of handle_key, field by field: the modifiers follow
        shift and alt, the flag bound to the key follows the key, and each
        group is marked for a refresh when its key moved or a modifier
        changed. */
    method LatchKey(keyCode: int, isShiftDown: bool, isAltDown: bool, isKeyDown: bool)
      returns (updateDriving: bool, updateLift: bool, updateHead: bool)
      modifies this`driveForwards, this`driveBack, this`turnLeft, this`turnRight
      modifies this`liftUp, this`liftDown, this`headUp, this`headDown
      modifies this`goFast, this`goSlow
      ensures driveForwards == Follow(old(driveForwards), keyCode == 'W' as int, isKeyDown)
      ensures driveBack == Follow(old(driveBack), keyCode == 'S' as int, isKeyDown)
      ensures turnLeft == Follow(old(turnLeft), keyCode == 'A' as int, isKeyDown)
      ensures turnRight == Follow(old(turnRight), keyCode == 'D' as int, isKeyDown)
      ensures liftUp == Follow(old(liftUp), keyCode == 'R' as int, isKeyDown)
      ensures liftDown == Follow(old(liftDown), keyCode == 'F' as int, isKeyDown)
      ensures headUp == Follow(old(headUp), keyCode == 'T' as int, isKeyDown)
      ensures headDown == Follow(old(headDown), keyCode == 'G' as int, isKeyDown)
      ensures goFast == isShiftDown && goSlow == isAltDown
      ensures updateDriving == (old(goFast) != isShiftDown || old(goSlow) != isAltDown || BoundTo(keyCode, Driving))
      ensures updateLift == (old(goFast) != isShiftDown || old(goSlow) != isAltDown || BoundTo(keyCode, Lift))
      ensures updateHead == (old(goFast) != isShiftDown || old(goSlow) != isAltDown || BoundTo(keyCode, Head))
    {
      var wasGoFast := goFast;
      var wasGoSlow := goSlow;
      goFast := isShiftDown;
      goSlow := isAltDown;
      var speedChanged := wasGoFast != goFast || wasGoSlow != goSlow;
      updateDriving := SetDrivingFlag(keyCode, isKeyDown, speedChanged);
      updateLift := SetLiftFlag(keyCode, isKeyDown, speedChanged);
      updateHead := SetHeadFlag(keyCode, isKeyDown, speedChanged);
    }

    /** LatchKey stated on the snapshot of the fields. */
    method SetKeyFlags(keyCode: int, isShiftDown: bool, isAltDown: bool, isKeyDown: bool, ghost before: InputState)
      returns (updateDriving: bool, updateLift: bool, updateHead: bool)
      requires before == Input()
      modifies this`driveForwards, this`driveBack, this`turnLeft, this`turnRight
      modifies this`liftUp, this`liftDown, this`headUp, this`headDown
      modifies this`goFast, this`goSlow
      ensures Input() == KeyInput(before, keyCode, isShiftDown, isAltDown, isKeyDown)
      ensures updateDriving == (before.goFast != isShiftDown || before.goSlow != isAltDown || BoundTo(keyCode, Driving))
      ensures updateLift == (before.goFast != isShiftDown || before.goSlow != isAltDown || BoundTo(keyCode, Lift))
      ensures updateHead == (before.goFast != isShiftDown || before.goSlow != isAltDown || BoundTo(keyCode, Head))
    {
      updateDriving, updateLift, updateHead := LatchKey(keyCode, isShiftDown, isAltDown, isKeyDown);
      KeyInputFromFlags(before, Input(), keyCode, isShiftDown, isAltDown, isKeyDown);
    }

    /** The motion half of handle_key: recompute driving, head and lift, in
        that order, for the groups asked for. */
    method RefreshGroups(updateDriving: bool, updateHead: bool, updateLift: bool)
      modifies robot`log
      ensures robot.log == old(robot.log) + RefreshCommands(updateDriving, updateHead, updateLift, Input(), robot.isOnCharger)
    {
      if updateDriving {
        UpdateDriving();
      }
      if updateHead {
        UpdateHead();
      }
      if updateLift {
        UpdateLift();
      }
    }

    /** handle_key: the modifiers follow shift and alt, the flag bound to the
        key follows the key, each actuator group is recomputed when its key
        moved or a modifier changed, and releasing a digit key requests that
        key's animation. ok is false where key_code_to_anim_name raises
        IndexError; the flags and motion calls before it stand. */
    method HandleKey(keyCode: int, isShiftDown: bool, isCtrlDown: bool, isAltDown: bool, isKeyDown: bool)
      returns (ok: bool)
      requires Valid()
      modifies this`driveForwards, this`driveBack, this`turnLeft, this`turnRight
      modifies this`liftUp, this`liftDown, this`headUp, this`headDown
      modifies this`goFast, this`goSlow, this`actionQueue, robot`log
      ensures Valid()
      ensures Input() == KeyInput(old(Input()), keyCode, isShiftDown, isAltDown, isKeyDown)
      ensures var e := ReleaseEffect(animNames, animIndexForKey, keyCode, isKeyDown, old(actionQueue), !robot.busy);
              ok == e.ok && actionQueue == e.queue
              && robot.log == old(robot.log) + KeyMotion(old(Input()), keyCode, isShiftDown, isAltDown, isKeyDown, robot.isOnCharger) + e.calls
    {
      ghost var before := Input();
      var updateDriving, updateLift, updateHead := SetKeyFlags(keyCode, isShiftDown, isAltDown, isKeyDown, before);
      RefreshGroups(updateDriving, updateHead, updateLift);
      KeyMotionOfDecisions(before, keyCode, isShiftDown, isAltDown, isKeyDown, robot.isOnCharger,
                           updateDriving, updateHead, updateLift);
      assert actionQueue == old(actionQueue);
      ok := ReleaseKey(keyCode, isKeyDown);
    }

    /** The release half of handle_key: releasing a digit key requests that
        key's animation; ok is false where key_code_to_anim_name raises
        IndexError. */
    method ReleaseKey(keyCode: int, isKeyDown: bool) returns (ok: bool)
      requires Valid()
      modifies this`actionQueue, robot`log
      ensures Valid()
      ensures var e := ReleaseEffect(animNames, animIndexForKey, keyCode, isKeyDown, old(actionQueue), !robot.busy);
              ok == e.ok && actionQueue == e.queue && robot.log == old(robot.log) + e.calls
    {
      ok := true;
      if !isKeyDown {
        if keyCode >= '0' as int && keyCode <= '9' as int {
          match KeyCodeToAnimName(animNames, animIndexForKey, keyCode) {
            case None =>
              ok := false;
            case Some(animName) =>
              PlayAnimation(animName);
          }
        }
      }
    }

    // -------------------------------------------------------- action queue

    method QueueAction(newAction: Action)
      requires Valid()
      modifies this`actionQueue
      ensures Valid()
      ensures actionQueue == Enqueued(old(actionQueue), newAction)
    {
      if |actionQueue| > 10 {
        actionQueue := actionQueue[1..];
      }
      actionQueue := actionQueue + [newAction];
    }

    method TrySayText(text: string) returns (accepted: bool)
      modifies robot`log
      ensures accepted == !robot.busy
      ensures robot.log == old(robot.log) + [Command.SayText(text)]
    {
      accepted := robot.SayText(text);
    }

    method TryPlayAnim(animName: string) returns (accepted: bool)
      modifies robot`log
      ensures accepted == !robot.busy
      ensures robot.log == old(robot.log) + [Command.PlayAnim(animName)]
    {
      accepted := robot.PlayAnim(animName);
    }

    /** update: try the head of the queue once, and drop it only if the
        robot accepted it. */
    method Update()
      requires Valid()
      modifies this`actionQueue, robot`log
      ensures Valid()
      ensures actionQueue == Tick(old(actionQueue), !robot.busy)
      ensures robot.log == old(robot.log) + if old(actionQueue) == [] then [] else [Attempt(old(actionQueue)[0])]
    {
      if |actionQueue| > 0 {
        var queuedAction := actionQueue[0];
        var accepted: bool;
        match queuedAction.func {
          case TrySayText =>
            accepted := TrySayText(queuedAction.arg);
          case TryPlayAnim =>
            accepted := TryPlayAnim(queuedAction.arg);
        }
        if accepted {
          actionQueue := actionQueue[1..];
        }
      }
    }

    /** say_text: queue the speech request, then one update. */
    method SayText(text: string)
      requires Valid()
      modifies this`actionQueue, robot`log
      ensures Valid()
      ensures var q := Enqueued(old(actionQueue), Action(ActionFunc.TrySayText, text));
              actionQueue == Tick(q, !robot.busy) && robot.log == old(robot.log) + [Attempt(q[0])]
    {
      QueueAction(Action(ActionFunc.TrySayText, text));
      Update();
    }

    /** play_animation: queue the animation request, then one update. */
    method PlayAnimation(animName: string)
      requires Valid()
      modifies this`actionQueue, robot`log
      ensures Valid()
      ensures var q := Enqueued(old(actionQueue), Action(ActionFunc.TryPlayAnim, animName));
              actionQueue == Tick(q, !robot.busy) && robot.log == old(robot.log) + [Attempt(q[0])]
    {
      QueueAction(Action(ActionFunc.TryPlayAnim, animName));
      Update();
    }
  }

  /** With nothing queued and the robot free, a request is carried out at
      once and leaves the queue empty; with the robot busy it waits alone. */
  lemma RequestOnEmptyQueue(a: Action, accepted: bool)
    ensures Enqueued([], a)[0] == a
    ensures Tick(Enqueued([], a), accepted) == if accepted then [] else [a]
  {
  }

  /** Releasing digit key k on a freshly built controller with nothing
      queued: the key's default animation (or the k-th one) is tried at once;
      a free robot leaves the queue empty, a busy one leaves the request
      waiting alone. Without either animation the lookup raises IndexError
      and nothing happens. */
  lemma DigitReleaseOnEmptyQueue(animNames: seq<string>, animIndexForKey: seq<int>, k: nat, accepted: bool)
    requires k < KeyCount && |animIndexForKey| == KeyCount
    requires forall j :: 0 <= j < KeyCount ==> animIndexForKey[j] == DefaultAnimIndex(animNames, j)
    ensures var e := ReleaseEffect(animNames, animIndexForKey, '0' as int + k, false, [], accepted);
            if DefaultAnimsForKeys[k] in animNames || k < |animNames| then
              var name := if DefaultAnimsForKeys[k] in animNames then DefaultAnimsForKeys[k] else animNames[k];
              e == Release(true, if accepted then [] else [Action(ActionFunc.TryPlayAnim, name)], [PlayAnim(name)])
            else
              e == Release(false, [], [])
  {
    DigitKeyAnimation(animNames, animIndexForKey, k);
    assert '0' as int <= '0' as int + k <= '9' as int;
    var name := KeyCodeToAnimName(animNames, animIndexForKey, '0' as int + k);
    if name.Some? {
      RequestOnEmptyQueue(Action(ActionFunc.TryPlayAnim, name.value), accepted);
    }
  }

  // ------------------------------------------------------------ renderers

  /** func_to_name for the two callables the queue ever holds. */
  function FuncToName(func: ActionFunc): string
  {
    match func
    case TrySayText => "say_text"
    case TryPlayAnim => "play_anim"
  }

  /** The two queued callables get different names. */
  lemma FuncToNameDistinct(f: ActionFunc, g: ActionFunc)
    ensures FuncToName(f) == FuncToName(g) <==> f == g
    ensures FuncToName(f)[0] == (if f.TrySayText? then 's' else 'p')
  {
  }

  /** action_to_text: the function's name and its argument (str of a str is itself). */
  function ActionToText(action: Action): string
  {
    FuncToName(action.func) + "( " + action.arg + " )"
  }

  /** The text of an action determines the action: it tells speech from
      animation, and the argument can be read back between the brackets. */
  lemma ActionToTextInjective(a: Action, b: Action)
    ensures ActionToText(a) == ActionToText(b) <==> a == b
  {
    if ActionToText(a) == ActionToText(b) {
      var t := ActionToText(a);
      FuncToNameDistinct(a.func, b.func);
      assert t[0] == FuncToName(a.func)[0] && t[0] == FuncToName(b.func)[0];
      assert a.func == b.func;
      var p := FuncToName(a.func) + "( ";
      assert t == p + a.arg + " )" && t == p + b.arg + " )";
      assert a.arg == t[|p|..|t| - 2];
      assert b.arg == t[|p|..|t| - 2];
    }
  }

  function QueueEntryText(i: int, action: Action): string
  {
    "[" + IntToString(i) + "] " + ActionToText(action)
  }

  /** action_queue_to_text: the numbered entries from 0, concatenated. */
  method ActionQueueToText(actionQueue: seq<Action>) returns (outText: string)
    ensures outText == Numbered(actionQueue, 0, QueueEntryText)
  {
    outText := "";
    var i := 0;
    while i < |actionQueue|
      invariant 0 <= i <= |actionQueue|
      invariant outText == Numbered(actionQueue[..i], 0, QueueEntryText)
    {
      NumberedPrefixStep(actionQueue, i, 0, QueueEntryText);
      outText := outText + QueueEntryText(i, actionQueue[i]);
      i := i + 1;
    }
    assert actionQueue[..i] == actionQueue;
  }

  function SelectOpenTag(selectorIndex: int): string
  {
    "<select onchange=\"handleDropDownSelect(this)\" name=\"animSelector" + IntToString(selectorIndex) + "\">"
  }

  function OptionTag(i: int, animName: string, isSelected: bool): string
  {
    "<option value=" + IntToString(i) + (if isSelected then " selected=\"selected\"" else "") + ">"
    + animName + "</option>"
  }

  /** The options for names, numbered from 0, the one at position selected marked. */
  function OptionsHtml(names: seq<string>, selected: int): string
    decreases |names|
  {
    if names == [] then ""
    else
      var n := |names| - 1;
      OptionsHtml(names[..n], selected) + OptionTag(n, names[n], n == selected)
  }

  /** The HTML get_anim_sel_drop_down builds: one option per animation,
      the key's current entry selected. The key's entry is looked up inside
      the loop, so a bad selector index raises IndexError (None) only when
      there is at least one animation. */
  function DropDownHtml(animNames: seq<string>, animIndexForKey: seq<int>, selectorIndex: int): Option<string>
  {
    match PyIndex(|animIndexForKey|, selectorIndex)
    case None =>
      if |animNames| > 0 then None else Some(SelectOpenTag(selectorIndex) + "</select>")
    case Some(k) =>
      Some(SelectOpenTag(selectorIndex) + OptionsHtml(animNames, animIndexForKey[k]) + "</select>")
  }

  /** The option text the loop appends for position i, marked when i is selected. */
  function OptionEntry(selected: int): (int, string) -> string
  {
    (i: int, name: string) => OptionTag(i, name, i == selected)
  }

  /** The options, built from the last one backwards, are the same text as
      the loop's numbered entries from 0 with the selected position marked. */
  lemma {:induction false} OptionsHtmlNumbered(names: seq<string>, selected: int)
    ensures OptionsHtml(names, selected)
            == Numbered(names, 0, OptionEntry(selected))
    decreases |names|
  {
    if names != [] {
      var n := |names| - 1;
      var init := names[..n];
      assert init + [names[n]] == names;
      OptionsHtmlNumbered(init, selected);
      NumberedSnoc(init, 0, OptionEntry(selected), names[n]);
      assert OptionEntry(selected)(n, names[n]) == OptionTag(n, names[n], n == selected);
    }
  }

  /** The drop-down fails exactly when the selector index is outside the key
      table and there is an animation to list; otherwise it is the select tag
      around one numbered option per animation, the key's entry marked. */
  lemma DropDownHtmlShape(animNames: seq<string>, animIndexForKey: seq<int>, selectorIndex: int)
    ensures DropDownHtml(animNames, animIndexForKey, selectorIndex).None?
            <==> |animNames| > 0 && !(-|animIndexForKey| <= selectorIndex < |animIndexForKey|)
    ensures -|animIndexForKey| <= selectorIndex < |animIndexForKey| ==>
              var sel := animIndexForKey[PyIndex(|animIndexForKey|, selectorIndex).value];
              DropDownHtml(animNames, animIndexForKey, selectorIndex)
              == Some(SelectOpenTag(selectorIndex)
                      + Numbered(animNames, 0, OptionEntry(sel))
                      + "</select>")
  {
    if -|animIndexForKey| <= selectorIndex < |animIndexForKey| {
      OptionsHtmlNumbered(animNames, animIndexForKey[PyIndex(|animIndexForKey|, selectorIndex).value]);
    }
  }

  /** One more pass of the option loop extends the drop-down text by the
      next name's option tag. */
  lemma DropDownTextGrows(openTag: string, names: seq<string>, selected: int, i: nat)
    requires i < |names|
    ensures openTag + OptionsHtml(names[..i], selected) + OptionTag(i, names[i], i == selected)
            == openTag + OptionsHtml(names[..i + 1], selected)
  {
    assert names[..i + 1][..i] == names[..i];
  }

  /** get_anim_sel_drop_down on the controller the service holds. */
  method GetAnimSelDropDown(rc: RemoteControl, selectorIndex: int) returns (html: Option<string>)
    ensures html == DropDownHtml(rc.animNames, rc.animIndexForKey, selectorIndex)
  {
    var openTag := SelectOpenTag(selectorIndex);
    var htmlText := openTag;
    var names := rc.animNames;
    var table := rc.animIndexForKey;
    ghost var lookup := PyIndex(|table|, selectorIndex);
    ghost var selected := if lookup.Some? then table[lookup.value] else -1;
    var i := 0;
    while i < |names|
      invariant 0 <= i <= |names|
      invariant i > 0 ==> lookup.Some?
      invariant htmlText == openTag + OptionsHtml(names[..i], selected)
    {
      var entry := PyIndex(|table|, selectorIndex);
      if entry.None? {
        return None;
      }
      var isSelectedItem := i == table[entry.value];
      DropDownTextGrows(openTag, names, selected, i);
      htmlText := htmlText + OptionTag(i, names[i], isSelectedItem);
      i := i + 1;
    }
    assert names[..i] == names;
    html := Some(htmlText + "</select>");
  }
}
