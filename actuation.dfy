/** The actuation side of control.py: the intent flags the key handler
    latches, the three-tier speed choice, and the commands that
    update_driving, update_head, update_lift and mouse-look send to the
    robot, all as functions of a snapshot of the controller's fields.
    Python booleans used in arithmetic are the integers 0 and 1 (Bit). */
module Actuation {
  import opened Util
  import opened Remap

  /** One call the controller makes on the robot. */
  datatype Command =
    | DriveWheels(lSpeed: real, rSpeed: real, lAccel: real, rAccel: real)
    | MoveHead(headVel: real)
    | MoveLift(liftVel: real)
    | DriveOffCharger
    | SayText(text: string)
    | PlayAnim(name: string)

  /** The fields of RemoteControlCozmo that the actuation code reads. */
  datatype InputState = InputState(
    driveForwards: bool, driveBack: bool, turnLeft: bool, turnRight: bool,
    liftUp: bool, liftDown: bool, headUp: bool, headDown: bool,
    goFast: bool, goSlow: bool,
    mouseLook: bool, mouseDir: real)

  /** Half-width of the mouse-look turn range (handle_mouse's mouse_sensitivity). */
  const MouseSensitivity: real := 1.5

  /** A Python bool used as a number. */
  function Bit(b: bool): int
  {
    if b then 1 else 0
  }

  /** pick_speed: shift alone selects the fast value, alt alone the slow
      one; neither or both select the middle one. */
  function PickSpeed(s: InputState, fast: real, mid: real, slow: real): (r: real)
    ensures s.goFast && !s.goSlow ==> r == fast
    ensures s.goSlow && !s.goFast ==> r == slow
    ensures s.goFast == s.goSlow ==> r == mid
  {
    if s.goFast then (if !s.goSlow then fast else mid)
    else if s.goSlow then slow
    else mid
  }

  // ---------------------------------------------------------------- driving

  /** The (forward, turn) speed pair update_driving uses, by tier. */
  function DriveSpeeds(s: InputState): (r: (real, real))
    ensures r == if s.goFast && !s.goSlow then (150.0, 100.0)
                 else if s.goSlow && !s.goFast then (50.0, 30.0)
                 else (75.0, 50.0)
  {
    (PickSpeed(s, 150.0, 75.0, 50.0), PickSpeed(s, 100.0, 50.0, 30.0))
  }

  /** drive_dir: forwards minus back, one of -1, 0, 1. */
  function DriveDir(s: InputState): int
  {
    Bit(s.driveForwards) - Bit(s.driveBack)
  }

  /** turn_dir: right minus left plus the mouse-look bias, negated while reversing. */
  function TurnDir(s: InputState): real
  {
    var t := (Bit(s.turnRight) - Bit(s.turnLeft)) as real + s.mouseDir;
    if DriveDir(s) < 0 then -t else t
  }

  /** The differential wheel speeds (left, right): their mean is the forward
      component and half their difference is the turn component. */
  function WheelSpeeds(s: InputState): (w: (real, real))
    ensures w.0 + w.1 == 2.0 * DriveDir(s) as real * DriveSpeeds(s).0
    ensures w.0 - w.1 == 2.0 * DriveSpeeds(s).1 * TurnDir(s)
  {
    var forwardSpeed := DriveSpeeds(s).0;
    var turnSpeed := DriveSpeeds(s).1;
    (DriveDir(s) as real * forwardSpeed + turnSpeed * TurnDir(s),
     DriveDir(s) as real * forwardSpeed - turnSpeed * TurnDir(s))
  }

  /** The calls update_driving makes: an attempt to drive off the charger
      contacts exactly when driving forwards while on the charger (drive_dir
      > 0.1 holds only for drive_dir == 1), then the wheel command with each
      acceleration four times its speed. */
  function DrivingCommands(s: InputState, onCharger: bool): (cmds: seq<Command>)
    ensures |cmds| == 1 || |cmds| == 2
    ensures |cmds| == 2 <==> s.driveForwards && !s.driveBack && onCharger
    ensures |cmds| == 2 ==> cmds[0] == DriveOffCharger
    ensures cmds[|cmds| - 1].DriveWheels?
    ensures cmds[|cmds| - 1].lSpeed == WheelSpeeds(s).0 && cmds[|cmds| - 1].rSpeed == WheelSpeeds(s).1
    ensures cmds[|cmds| - 1].lAccel == 4.0 * WheelSpeeds(s).0
    ensures cmds[|cmds| - 1].rAccel == 4.0 * WheelSpeeds(s).1
  {
    var w := WheelSpeeds(s);
    (if DriveDir(s) as real > 0.1 && onCharger then [DriveOffCharger] else [])
    + [DriveWheels(w.0, w.1, w.0 * 4.0, w.1 * 4.0)]
  }

  /** s with the forward key held and the back key released. */
  function Forwards(s: InputState): InputState
  {
    s.(driveForwards := true, driveBack := false)
  }

  /** s with the back key held and the forward key released. */
  function Backwards(s: InputState): InputState
  {
    s.(driveForwards := false, driveBack := true)
  }

  /** Reversing flips the steering direction relative to driving forwards
      with the same turn keys and mouse bias. */
  lemma ReversingFlipsSteering(s: InputState)
    ensures TurnDir(Backwards(s)) == -TurnDir(Forwards(s))
  {
  }

  /** Because steering is flipped, reversing negates both wheel speeds: the
      robot backs along the same arc it would drive forwards. */
  lemma ReversingRetracesArc(s: InputState)
    ensures WheelSpeeds(Backwards(s)).0 == -WheelSpeeds(Forwards(s)).0
    ensures WheelSpeeds(Backwards(s)).1 == -WheelSpeeds(Forwards(s)).1
  {
    ReversingFlipsSteering(s);
  }

  /** With the mouse bias inside its range, every wheel speed stays within
      150 + 100 * 2.5 = 400 in magnitude, whatever keys and modifiers are held. */
  lemma WheelSpeedsBounded(s: InputState)
    requires -MouseSensitivity <= s.mouseDir <= MouseSensitivity
    ensures -400.0 <= WheelSpeeds(s).0 <= 400.0
    ensures -400.0 <= WheelSpeeds(s).1 <= 400.0
  {
    var f := DriveSpeeds(s).0;
    var t := DriveSpeeds(s).1;
    var d := DriveDir(s) as real;
    var td := TurnDir(s);
    assert -2.5 <= td <= 2.5;
    assert -150.0 <= d * f <= 150.0;
    assert -250.0 <= t * td <= 250.0 by {
      assert 0.0 < t <= 100.0;
      if td >= 0.0 {
        assert t * td <= 100.0 * td;
      } else {
        assert t * (-td) <= 100.0 * (-td);
      }
    }
  }

  // ------------------------------------------------------------ head & lift

  /** update_head's velocity: (head_up - head_down) times the tier speed 2, 1 or 0.5. */
  function HeadVelocity(s: InputState): (v: real)
    ensures v == 0.0 <==> s.headUp == s.headDown
    ensures v > 0.0 <==> s.headUp && !s.headDown
    ensures s.headUp != s.headDown ==>
              var tier := if s.goFast && !s.goSlow then 2.0 else if s.goSlow && !s.goFast then 0.5 else 1.0;
              v == tier || v == -tier
  {
    (Bit(s.headUp) - Bit(s.headDown)) as real * PickSpeed(s, 2.0, 1.0, 0.5)
  }

  /** The calls update_head makes: none while mouse-look steers the head. */
  function HeadCommands(s: InputState): seq<Command>
  {
    if s.mouseLook then [] else [MoveHead(HeadVelocity(s))]
  }

  /** update_lift's velocity: (lift_up - lift_down) times the tier speed 8, 4 or 2. */
  function LiftVelocity(s: InputState): (v: real)
    ensures v == 0.0 <==> s.liftUp == s.liftDown
    ensures v > 0.0 <==> s.liftUp && !s.liftDown
    ensures s.liftUp != s.liftDown ==>
              var tier := if s.goFast && !s.goSlow then 8.0 else if s.goSlow && !s.goFast then 2.0 else 4.0;
              v == tier || v == -tier
  {
    (Bit(s.liftUp) - Bit(s.liftDown)) as real * PickSpeed(s, 8.0, 4.0, 2.0)
  }

  /** The call update_lift makes. */
  function LiftCommands(s: InputState): seq<Command>
  {
    [MoveLift(LiftVelocity(s))]
  }

  // ------------------------------------------------------------- mouse-look

  /** handle_mouse's turn bias: the horizontal window position 0..1 mapped
      onto -1.5..1.5, clamped outside the window, zero at the centre. */
  function MouseTurn(x: real): (d: real)
    ensures -MouseSensitivity <= d <= MouseSensitivity
    ensures x <= 0.0 ==> d == -MouseSensitivity
    ensures x >= 1.0 ==> d == MouseSensitivity
    ensures x == 0.5 ==> d == 0.0
  {
    RemapToRange(x, 0.0, 1.0, -MouseSensitivity, MouseSensitivity)
  }

  /** handle_mouse's desired head angle in degrees: the top of the window
      asks for 45, the bottom for -25, clamped outside the window. */
  function TargetHeadAngle(y: real): (a: real)
    ensures -25.0 <= a <= 45.0
    ensures y <= 0.0 ==> a == 45.0
    ensures y >= 1.0 ==> a == -25.0
  {
    RemapToRange(y, 0.0, 1.0, 45.0, -25.0)
  }

  /** The proportional gain of mouse-look head tracking, per degree of error. */
  const MouseHeadGain: real := 0.03

  /** handle_mouse's head velocity: a proportional controller with gain 0.03
      on the angle error, so the head moves towards the target and stops on it. */
  function MouseHeadVelocity(y: real, headAngle: real): (v: real)
    ensures v > 0.0 <==> headAngle < TargetHeadAngle(y)
    ensures v == 0.0 <==> headAngle == TargetHeadAngle(y)
    ensures v == MouseHeadGain * (TargetHeadAngle(y) - headAngle) && MouseHeadGain > 0.0
  {
    (TargetHeadAngle(y) - headAngle) * MouseHeadGain
  }

  // ------------------------------------------------------------- key table

  /** The eight intent flags handle_key latches. */
  datatype Flag = DriveForwardsKey | DriveBackKey | TurnLeftKey | TurnRightKey
                | LiftUpKey | LiftDownKey | HeadUpKey | HeadDownKey

  /** The three actuator groups handle_key may recompute. */
  datatype Group = Driving | Head | Lift

  /** The key bound to each flag: W S A D drive, R F lift, T G head. */
  function KeyFlag(keyCode: int): Option<Flag>
  {
    if keyCode == 'W' as int then Some(DriveForwardsKey)
    else if keyCode == 'S' as int then Some(DriveBackKey)
    else if keyCode == 'A' as int then Some(TurnLeftKey)
    else if keyCode == 'D' as int then Some(TurnRightKey)
    else if keyCode == 'R' as int then Some(LiftUpKey)
    else if keyCode == 'F' as int then Some(LiftDownKey)
    else if keyCode == 'T' as int then Some(HeadUpKey)
    else if keyCode == 'G' as int then Some(HeadDownKey)
    else None
  }

  function GroupOf(f: Flag): Group
  {
    match f
    case DriveForwardsKey | DriveBackKey | TurnLeftKey | TurnRightKey => Driving
    case LiftUpKey | LiftDownKey => Lift
    case HeadUpKey | HeadDownKey => Head
  }

  function GetFlag(s: InputState, f: Flag): bool
  {
    match f
    case DriveForwardsKey => s.driveForwards
    case DriveBackKey => s.driveBack
    case TurnLeftKey => s.turnLeft
    case TurnRightKey => s.turnRight
    case LiftUpKey => s.liftUp
    case LiftDownKey => s.liftDown
    case HeadUpKey => s.headUp
    case HeadDownKey => s.headDown
  }

  /** A flag after a key event: the key's state when the key is the flag's
      own, otherwise unchanged. */
  function Follow(flag: bool, isItsKey: bool, down: bool): bool
  {
    if isItsKey then down else flag
  }

  /** The fields after handle_key: the modifiers follow shift and alt, and
      each flag follows the key's state when the key is the one bound to it. */
  function KeyInput(s: InputState, keyCode: int, shift: bool, alt: bool, down: bool): (r: InputState)
    ensures r.goFast == shift && r.goSlow == alt
    ensures r.mouseLook == s.mouseLook && r.mouseDir == s.mouseDir
  {
    InputState(Follow(s.driveForwards, keyCode == 'W' as int, down),
               Follow(s.driveBack, keyCode == 'S' as int, down),
               Follow(s.turnLeft, keyCode == 'A' as int, down),
               Follow(s.turnRight, keyCode == 'D' as int, down),
               Follow(s.liftUp, keyCode == 'R' as int, down),
               Follow(s.liftDown, keyCode == 'F' as int, down),
               Follow(s.headUp, keyCode == 'T' as int, down),
               Follow(s.headDown, keyCode == 'G' as int, down),
               shift, alt, s.mouseLook, s.mouseDir)
  }

  /** The record handle_key leaves, assembled from its flags one by one. */
  lemma KeyInputFromFlags(before: InputState, after: InputState, keyCode: int, shift: bool, alt: bool, down: bool)
    requires after.driveForwards == Follow(before.driveForwards, keyCode == 'W' as int, down)
    requires after.driveBack == Follow(before.driveBack, keyCode == 'S' as int, down)
    requires after.turnLeft == Follow(before.turnLeft, keyCode == 'A' as int, down)
    requires after.turnRight == Follow(before.turnRight, keyCode == 'D' as int, down)
    requires after.liftUp == Follow(before.liftUp, keyCode == 'R' as int, down)
    requires after.liftDown == Follow(before.liftDown, keyCode == 'F' as int, down)
    requires after.headUp == Follow(before.headUp, keyCode == 'T' as int, down)
    requires after.headDown == Follow(before.headDown, keyCode == 'G' as int, down)
    requires after.goFast == shift && after.goSlow == alt
    requires after.mouseLook == before.mouseLook && after.mouseDir == before.mouseDir
    ensures after == KeyInput(before, keyCode, shift, alt, down)
  {
  }

  /** A key moves exactly the one flag the key table binds it to, and an
      unbound key moves none. */
  lemma KeyInputSetsOnlyItsFlag(s: InputState, keyCode: int, shift: bool, alt: bool, down: bool, f: Flag)
    ensures GetFlag(KeyInput(s, keyCode, shift, alt, down), f)
            == (if KeyFlag(keyCode) == Some(f) then down else GetFlag(s, f))
  {
    match f {
      case DriveForwardsKey =>
      case DriveBackKey =>
      case TurnLeftKey =>
      case TurnRightKey =>
      case LiftUpKey =>
      case LiftDownKey =>
      case HeadUpKey =>
      case HeadDownKey =>
    }
  }

  predicate SpeedChanged(s: InputState, shift: bool, alt: bool)
  {
    s.goFast != shift || s.goSlow != alt
  }

  /** handle_key recomputes a group when its key was pressed or released, or
      when a speed modifier changed. */
  predicate Refreshes(s: InputState, keyCode: int, shift: bool, alt: bool, g: Group)
  {
    SpeedChanged(s, shift, alt) || BoundTo(keyCode, g)
  }

  /** The key is bound to one of the flags of group g. */
  predicate BoundTo(keyCode: int, g: Group)
  {
    KeyFlag(keyCode).Some? && GroupOf(KeyFlag(keyCode).value) == g
  }

  function GroupCommands(g: Group, s: InputState, onCharger: bool): seq<Command>
  {
    match g
    case Driving => DrivingCommands(s, onCharger)
    case Head => HeadCommands(s)
    case Lift => LiftCommands(s)
  }

  /** The calls of the group refreshes asked for, in handle_key's order:
      driving, head, lift. */
  function RefreshCommands(driving: bool, head: bool, lift: bool, t: InputState, onCharger: bool): seq<Command>
  {
    (if driving then DrivingCommands(t, onCharger) else [])
    + (if head then HeadCommands(t) else [])
    + (if lift then LiftCommands(t) else [])
  }

  /** The motion calls handle_key makes from state s. */
  function KeyMotion(s: InputState, keyCode: int, shift: bool, alt: bool, down: bool, onCharger: bool): seq<Command>
  {
    RefreshCommands(Refreshes(s, keyCode, shift, alt, Driving),
                    Refreshes(s, keyCode, shift, alt, Head),
                    Refreshes(s, keyCode, shift, alt, Lift),
                    KeyInput(s, keyCode, shift, alt, down), onCharger)
  }

  /** KeyMotion from the refresh decisions handle_key took. */
  lemma KeyMotionOfDecisions(s: InputState, keyCode: int, shift: bool, alt: bool, down: bool, onCharger: bool,
                             driving: bool, head: bool, lift: bool)
    requires driving == (s.goFast != shift || s.goSlow != alt || BoundTo(keyCode, Driving))
    requires head == (s.goFast != shift || s.goSlow != alt || BoundTo(keyCode, Head))
    requires lift == (s.goFast != shift || s.goSlow != alt || BoundTo(keyCode, Lift))
    ensures KeyMotion(s, keyCode, shift, alt, down, onCharger)
            == RefreshCommands(driving, head, lift, KeyInput(s, keyCode, shift, alt, down), onCharger)
  {
  }

  /** A key bound to no flag, with the modifiers as they were, moves nothing. */
  lemma UnboundKeyMovesNothing(s: InputState, keyCode: int, down: bool, onCharger: bool)
    requires KeyFlag(keyCode) == None
    ensures KeyMotion(s, keyCode, s.goFast, s.goSlow, down, onCharger) == []
  {
  }

  /** A bound key, with the modifiers as they were, recomputes exactly its own group. */
  lemma BoundKeyRefreshesItsGroup(s: InputState, keyCode: int, down: bool, onCharger: bool)
    requires KeyFlag(keyCode).Some?
    ensures KeyMotion(s, keyCode, s.goFast, s.goSlow, down, onCharger)
            == GroupCommands(GroupOf(KeyFlag(keyCode).value), KeyInput(s, keyCode, s.goFast, s.goSlow, down), onCharger)
  {
  }

  /** A change of shift or alt recomputes all three groups, whatever the key. */
  lemma SpeedChangeRefreshesAll(s: InputState, keyCode: int, shift: bool, alt: bool, down: bool, onCharger: bool)
    requires SpeedChanged(s, shift, alt)
    ensures var t := KeyInput(s, keyCode, shift, alt, down);
            KeyMotion(s, keyCode, shift, alt, down, onCharger)
            == DrivingCommands(t, onCharger) + HeadCommands(t) + LiftCommands(t)
  {
  }
}
