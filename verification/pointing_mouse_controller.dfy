/**
 * The movement planner of LifeCompanion's virtual pointing mouse
 * (`PointingMouseController`).
 *
 * A direction command picks, for each axis it moves along, a target edge of the
 * frame and a pixel distance; `addKeyFrame` turns each (distance, target, axis)
 * into ten "check the frame position" key frames and one "move" key frame on an
 * animation timeline, whose duration is the distance times the time per pixel
 * (25 / mouse speed), cast to `long`. Clicks are forwarded to the real mouse.
 * Commands act only when the configuration's cursor is the pointing one and,
 * except for the primary click, the virtual mouse is not disabled.
 *
 * Playback and interpolation of the timeline, the stage, the AWT clicks and the
 * scanning pause are not modelled: each call into them is a `MouseEvent` in a log.
 */
module PointingMouse {
  import opened Wrappers
  import opened JavaArith

  /** `TIME_PER_PIXEL`: milliseconds per pixel at mouse speed 1. */
  const TimePerPixel: real := 25.0

  /** `NUMBER_OF_FRAME_CHECK`: check key frames added per animated axis. */
  const NumberOfFrameCheck: int := 10

  datatype VirtualMouseDrawing = Pointing | OtherDrawing

  type MouseSpeed = r: real | r > 0.0 witness 1.0

  /** The part of a configuration's virtual-mouse parameters the controller reads. */
  datatype VirtualMouseParameters = VirtualMouseParameters(mainMouseDrawing: VirtualMouseDrawing, mouseSpeed: MouseSpeed)

  datatype Axis = X | Y

  datatype KeyFrame =
    | CheckFrame(time: int)                          // runs checkFramePositionWithMouse
    | MoveFrame(time: int, axis: Axis, target: real) // animates the axis to target

  datatype Direction = Top | Bottom | Right | Left | TopLeft | TopRight | BottomRight | BottomLeft

  /** One call of `addKeyFrame(diff, wantedValue, property)`. */
  datatype AxisMove = AxisMove(diff: real, target: real, axis: Axis)

  /** A `Rectangle2D`: origin and size. */
  datatype Rectangle = Rectangle(minX: real, minY: real, width: real, height: real)

  datatype Button = Primary | Secondary | Middle

  /** Calls into the stage, the virtual mouse, the timeline and the scanning controller. */
  datatype MouseEvent =
    | StageShown
    | StageHidden
    | FrameToFrontAndFocus
    | FrameMovedToAvoidMouse(frameWidth: real, frameHeight: real, x: real, y: real)
    | MouseMovedTo(x: real, y: real)
    | Click(button: Button)
    | TimelinePlayed
    | ScanningPausedUntilNextSelection

  /** What the controller reads from the rest of the platform when a command runs. */
  datatype Platform = Platform(
    virtualMouseDisabled: bool,   // DISABLE_VIRTUAL_MOUSE is present
    mainFrameBounds: Rectangle,   // VirtualMouseController.getMainFrameBounds()
    initialX: real,               // the drawing's initial position on the primary screen
    initialY: real)

  datatype Command = Move(direction: Direction) | PrimaryClick | DoubleClick | SecondaryClick | MiddleClick

  // ---------------------------------------------------------------------------
  // Guards
  // ---------------------------------------------------------------------------

  /**
   * `isCurrentCursor()`. With no configuration the source throws a
   * NullPointerException before changing anything, so the command has no effect.
   */
  function IsCurrentCursor(configuration: Option<VirtualMouseParameters>): (b: bool)
    ensures configuration.None? ==> !b
    ensures b ==> configuration.value.mainMouseDrawing == Pointing
    ensures configuration.Some? && configuration.value.mainMouseDrawing != Pointing ==> !b
    ensures configuration.Some? && configuration.value.mainMouseDrawing == Pointing ==> b
  {
    configuration.Some? && configuration.value.mainMouseDrawing == Pointing
  }

  /** Whether a command does anything at all. */
  function CommandActs(command: Command, configuration: Option<VirtualMouseParameters>,
                       virtualMouseDisabled: bool): (r: bool)
    ensures r ==> configuration.Some? && configuration.value.mainMouseDrawing == Pointing
    ensures command.PrimaryClick? ==> (r <==> IsCurrentCursor(configuration))
    ensures !command.PrimaryClick? ==> (r <==> IsCurrentCursor(configuration) && !virtualMouseDisabled)
  {
    IsCurrentCursor(configuration) && (command.PrimaryClick? || !virtualMouseDisabled)
  }

  /** `Rectangle2D.contains(x, y)`: the closed rectangle. */
  function Contains(r: Rectangle, x: real, y: real): (b: bool)
    ensures b ==> r.minX <= x && r.minY <= y
    ensures b <==> r.minX <= x <= r.minX + r.width && r.minY <= y <= r.minY + r.height
  {
    r.minX <= x <= r.minX + r.width && r.minY <= y <= r.minY + r.height
  }

  // ---------------------------------------------------------------------------
  // Movement plan and key frames
  // ---------------------------------------------------------------------------

  function Max(a: real, b: real): real
  {
    if a >= b then a else b
  }

  /** The key-frame calls made by the callback of each `startMovingMouse*` method, in order. */
  function MovePlan(direction: Direction, x: real, y: real, frameWidth: real, frameHeight: real): (plan: seq<AxisMove>)
    ensures |plan| == (if direction in {Top, Bottom, Left, Right} then 1 else 2)
    ensures |plan| == 1 ==> plan[0].axis == (if direction in {Top, Bottom} then Y else X)
    ensures |plan| == 2 ==> plan[0].axis == X && plan[1].axis == Y && plan[0].diff == plan[1].diff
  {
    match direction
    case Top => [AxisMove(y, 0.0, Y)]
    case Bottom => [AxisMove(frameHeight - y, frameHeight, Y)]
    case Right => [AxisMove(frameWidth - x, frameWidth, X)]
    case Left => [AxisMove(x, 0.0, X)]
    case TopLeft =>
      var diff := Max(x, y);
      [AxisMove(diff, 0.0, X), AxisMove(diff, 0.0, Y)]
    case TopRight =>
      var diff := Max(frameWidth - x, y);
      [AxisMove(diff, frameWidth, X), AxisMove(diff, 0.0, Y)]
    case BottomRight =>
      var diff := Max(frameWidth - x, frameHeight - y);
      [AxisMove(diff, frameWidth, X), AxisMove(diff, frameHeight, Y)]
    case BottomLeft =>
      var diff := Max(x, frameHeight - y);
      [AxisMove(diff, 0.0, X), AxisMove(diff, frameHeight, Y)]
  }

  /** Reference definition: the edge a direction heads for on an axis, if it moves along it. */
  function EdgeTarget(direction: Direction, axis: Axis, frameWidth: real, frameHeight: real): Option<real>
  {
    match axis
    case X =>
      if direction in {Left, TopLeft, BottomLeft} then Some(0.0)
      else if direction in {Right, TopRight, BottomRight} then Some(frameWidth)
      else None
    case Y =>
      if direction in {Top, TopLeft, TopRight} then Some(0.0)
      else if direction in {Bottom, BottomLeft, BottomRight} then Some(frameHeight)
      else None
  }

  function Coordinate(axis: Axis, x: real, y: real): real
  {
    if axis == X then x else y
  }

  function Abs(r: real): real
  {
    if r < 0.0 then -r else r
  }

  /** Reference definition: how far the mouse is from the edge on one axis (zero if it does not move on it). */
  function Gap(direction: Direction, axis: Axis, x: real, y: real, frameWidth: real, frameHeight: real): real
  {
    match EdgeTarget(direction, axis, frameWidth, frameHeight)
    case Some(t) => Abs(t - Coordinate(axis, x, y))
    case None => 0.0
  }

  /** `timePerPixelSpeed`, bound in `modeStart` to `1.0 / mouseSpeed * TIME_PER_PIXEL`. */
  function TimePerPixelFor(speed: MouseSpeed): real
  {
    1.0 / speed * TimePerPixel
  }

  /** `totalTime = (long) (diff * timePerPixelSpeed)`. */
  function MoveDuration(diff: real, timePerPixel: real): int
  {
    LongCast(diff * timePerPixel)
  }

  /** The ten check frames, at `i * (totalTime / NUMBER_OF_FRAME_CHECK)`. */
  function CheckFrames(totalTime: int): seq<KeyFrame>
  {
    var verificationTime := JavaDiv(totalTime, NumberOfFrameCheck);
    seq(NumberOfFrameCheck, i requires 0 <= i < NumberOfFrameCheck => CheckFrame(i * verificationTime))
  }

  /** The key frames one `addKeyFrame` call appends. */
  function KeyFrameBatch(m: AxisMove, timePerPixel: real): seq<KeyFrame>
  {
    var totalTime := MoveDuration(m.diff, timePerPixel);
    CheckFrames(totalTime) + [MoveFrame(totalTime, m.axis, m.target)]
  }

  /** The key frames a whole plan appends, one batch per axis move, in plan order. */
  function PlanFrames(plan: seq<AxisMove>, timePerPixel: real): seq<KeyFrame>
  {
    if plan == [] then []
    else PlanFrames(plan[..|plan| - 1], timePerPixel) + KeyFrameBatch(plan[|plan| - 1], timePerPixel)
  }

  // ---------------------------------------------------------------------------
  // The controller
  // ---------------------------------------------------------------------------

  /** The calls `checkInitFrame` makes before it runs its callback. */
  function InitFrameEvents(stageCreated: bool, stageShowing: bool, platform: Platform,
                           frameWidth: real, frameHeight: real): seq<MouseEvent>
  {
    if stageCreated then
      (if stageShowing then [] else [StageShown, FrameToFrontAndFocus])
    else
      [StageShown, FrameToFrontAndFocus]
      + (if Contains(platform.mainFrameBounds, platform.initialX, platform.initialY)
         then [FrameMovedToAvoidMouse(frameWidth, frameHeight, platform.initialX, platform.initialY)]
         else [])
  }

  class PointingMouseController {
    var configuration: Option<VirtualMouseParameters>
    var mouseX: real
    var mouseY: real
    var frameWidth: real
    var frameHeight: real
    var timePerPixelSpeed: real
    /** The timeline's key-frame list. */
    var keyFrames: seq<KeyFrame>
    var playing: bool
    /** `pointingMouseStage != null` and `pointingMouseStage.isShowing()`. */
    var stageCreated: bool
    var stageShowing: bool
    var log: seq<MouseEvent>

    ghost predicate Valid()
      reads this
    {
      stageShowing ==> stageCreated
    }

    constructor ()
      ensures Valid()
      ensures configuration == None && keyFrames == [] && !playing
      ensures !stageCreated && !stageShowing && log == []
      ensures mouseX == 0.0 && mouseY == 0.0 && timePerPixelSpeed == 0.0
    {
      configuration := None;
      mouseX, mouseY := 0.0, 0.0;
      frameWidth, frameHeight := 0.0, 0.0;
      timePerPixelSpeed := 0.0;
      keyFrames := [];
      playing := false;
      stageCreated, stageShowing := false, false;
      log := [];
    }

    method CheckFramePositionWithMouse(frameBounds: Rectangle)
      modifies this`log
      ensures log == old(log) + (if Contains(frameBounds, mouseX, mouseY)
                                 then [FrameMovedToAvoidMouse(frameWidth, frameHeight, mouseX, mouseY)]
                                 else [])
    {
      if Contains(frameBounds, mouseX, mouseY) {
        log := log + [FrameMovedToAvoidMouse(frameWidth, frameHeight, mouseX, mouseY)];
      }
    }

    /** Shows the mouse stage, creating it and placing the mouse on first use. */
    method CheckInitFrame(platform: Platform)
      requires Valid()
      modifies this`log, this`stageCreated, this`stageShowing, this`mouseX, this`mouseY
      ensures Valid() && stageCreated && stageShowing
      ensures mouseX == (if old(stageCreated) then old(mouseX) else platform.initialX)
      ensures mouseY == (if old(stageCreated) then old(mouseY) else platform.initialY)
      ensures log == old(log) + InitFrameEvents(old(stageCreated), old(stageShowing), platform, frameWidth, frameHeight)
    {
      if stageCreated {
        if !stageShowing {
          stageShowing := true;
          log := log + [StageShown, FrameToFrontAndFocus];
        }
      } else {
        stageCreated, stageShowing := true, true;
        log := log + [StageShown];
        mouseX, mouseY := platform.initialX, platform.initialY;
        log := log + [FrameToFrontAndFocus];
        CheckFramePositionWithMouse(platform.mainFrameBounds);
      }
    }

    method AddKeyFrame(diff: real, wantedValue: real, axis: Axis)
      modifies this`keyFrames
      ensures keyFrames == old(keyFrames) + KeyFrameBatch(AxisMove(diff, wantedValue, axis), timePerPixelSpeed)
    {
      var totalTime := LongCast(diff * timePerPixelSpeed);
      var keyFrameMoveMouse := MoveFrame(totalTime, axis, wantedValue);
      var verificationTime := JavaDiv(totalTime, NumberOfFrameCheck);
      for i := 0 to NumberOfFrameCheck
        invariant keyFrames == old(keyFrames) + CheckFrames(totalTime)[..i]
      {
        CheckFramesPrefix(totalTime, i);
        keyFrames := keyFrames + [CheckFrame(i * verificationTime)];
      }
      assert CheckFrames(totalTime)[..NumberOfFrameCheck] == CheckFrames(totalTime);
      assert totalTime == MoveDuration(diff, timePerPixelSpeed);
      keyFrames := keyFrames + [keyFrameMoveMouse];
    }

    /** The `addKeyFrame` calls of one movement callback, in order. */
    method AddPlanKeyFrames(plan: seq<AxisMove>)
      modifies this`keyFrames
      ensures keyFrames == old(keyFrames) + PlanFrames(plan, timePerPixelSpeed)
    {
      for i := 0 to |plan|
        invariant keyFrames == old(keyFrames) + PlanFrames(plan[..i], timePerPixelSpeed)
      {
        assert plan[..i + 1][..i] == plan[..i];
        AddKeyFrame(plan[i].diff, plan[i].target, plan[i].axis);
      }
      assert plan[..|plan|] == plan;
    }

    method StopMovingMouse()
      modifies this`playing, this`keyFrames
      ensures !playing && keyFrames == []
    {
      playing := false;
      keyFrames := [];
    }

    method StartMoving()
      modifies this`playing, this`log
      ensures playing && log == old(log) + [TimelinePlayed, ScanningPausedUntilNextSelection]
    {
      playing := true;
      log := log + [TimelinePlayed, ScanningPausedUntilNextSelection];
    }

    /** The eight `startMovingMouse*` methods. */
    method StartMovingMouse(direction: Direction, platform: Platform)
      requires Valid()
      modifies this
      ensures Valid()
      ensures !CommandActs(Move(direction), old(configuration), platform.virtualMouseDisabled) ==> unchanged(this)
      ensures CommandActs(Move(direction), old(configuration), platform.virtualMouseDisabled) ==>
                var x := if old(stageCreated) then old(mouseX) else platform.initialX;
                var y := if old(stageCreated) then old(mouseY) else platform.initialY;
                && keyFrames == old(keyFrames) + PlanFrames(MovePlan(direction, x, y, frameWidth, frameHeight), timePerPixelSpeed)
                && playing && stageShowing && mouseX == x && mouseY == y
                && log == old(log) + InitFrameEvents(old(stageCreated), old(stageShowing), platform, frameWidth, frameHeight)
                          + [TimelinePlayed, ScanningPausedUntilNextSelection]
      ensures configuration == old(configuration) && frameWidth == old(frameWidth)
      ensures frameHeight == old(frameHeight) && timePerPixelSpeed == old(timePerPixelSpeed)
    {
      if IsCurrentCursor(configuration) && !platform.virtualMouseDisabled {
        CheckInitFrame(platform);
        AddPlanKeyFrames(MovePlan(direction, mouseX, mouseY, frameWidth, frameHeight));
        StartMoving();
      }
    }

    method FrameToFront()
      modifies this`log
      ensures log == old(log) + [FrameToFrontAndFocus]
    {
      log := log + [FrameToFrontAndFocus];
    }

    method ExecutePrimaryMouseClic(platform: Platform)
      requires Valid()
      modifies this`log, this`stageCreated, this`stageShowing, this`mouseX, this`mouseY
      ensures Valid()
      ensures !CommandActs(PrimaryClick, old(configuration), platform.virtualMouseDisabled) ==> unchanged(this)
      ensures CommandActs(PrimaryClick, old(configuration), platform.virtualMouseDisabled) ==>
                var x := if old(stageCreated) then old(mouseX) else platform.initialX;
                var y := if old(stageCreated) then old(mouseY) else platform.initialY;
                && mouseX == x && mouseY == y && stageCreated && stageShowing
                && log == old(log) + InitFrameEvents(old(stageCreated), old(stageShowing), platform, frameWidth, frameHeight)
                          + [MouseMovedTo(x, y), Click(Primary), FrameToFrontAndFocus]
      ensures keyFrames == old(keyFrames) && playing == old(playing) && configuration == old(configuration)
    {
      if IsCurrentCursor(configuration) {
        CheckInitFrame(platform);
        log := log + [MouseMovedTo(mouseX, mouseY), Click(Primary)];
        FrameToFront();
      }
    }

    method ExecuteDoubleMouseClic(platform: Platform)
      requires Valid()
      modifies this`log, this`stageCreated, this`stageShowing, this`mouseX, this`mouseY
      ensures Valid()
      ensures !CommandActs(DoubleClick, old(configuration), platform.virtualMouseDisabled) ==> unchanged(this)
      ensures CommandActs(DoubleClick, old(configuration), platform.virtualMouseDisabled) ==>
                var x := if old(stageCreated) then old(mouseX) else platform.initialX;
                var y := if old(stageCreated) then old(mouseY) else platform.initialY;
                && mouseX == x && mouseY == y && stageCreated && stageShowing
                && log == old(log) + InitFrameEvents(old(stageCreated), old(stageShowing), platform, frameWidth, frameHeight)
                          + [MouseMovedTo(x, y), Click(Primary), Click(Primary), FrameToFrontAndFocus]
      ensures keyFrames == old(keyFrames) && playing == old(playing) && configuration == old(configuration)
    {
      if IsCurrentCursor(configuration) && !platform.virtualMouseDisabled {
        CheckInitFrame(platform);
        log := log + [MouseMovedTo(mouseX, mouseY), Click(Primary), Click(Primary)];
        FrameToFront();
      }
    }

    method ExecuteSecondaryMouseClic(platform: Platform)
      requires Valid()
      modifies this`log, this`stageCreated, this`stageShowing, this`mouseX, this`mouseY
      ensures Valid()
      ensures !CommandActs(SecondaryClick, old(configuration), platform.virtualMouseDisabled) ==> unchanged(this)
      ensures CommandActs(SecondaryClick, old(configuration), platform.virtualMouseDisabled) ==>
                var x := if old(stageCreated) then old(mouseX) else platform.initialX;
                var y := if old(stageCreated) then old(mouseY) else platform.initialY;
                && mouseX == x && mouseY == y && stageCreated && stageShowing
                && log == old(log) + InitFrameEvents(old(stageCreated), old(stageShowing), platform, frameWidth, frameHeight)
                          + [MouseMovedTo(x, y), Click(Secondary), FrameToFrontAndFocus]
      ensures keyFrames == old(keyFrames) && playing == old(playing) && configuration == old(configuration)
    {
      if IsCurrentCursor(configuration) && !platform.virtualMouseDisabled {
        CheckInitFrame(platform);
        log := log + [MouseMovedTo(mouseX, mouseY), Click(Secondary)];
        FrameToFront();
      }
    }

    /** `pressMouseMiddleClicWithoutNoVirtualPosition`: clicks where the real mouse is, without the stage. */
    method PressMouseMiddleClic(platform: Platform)
      modifies this`log
      ensures log == old(log) + (if CommandActs(MiddleClick, configuration, platform.virtualMouseDisabled)
                                 then [Click(Middle)] else [])
    {
      if IsCurrentCursor(configuration) && !platform.virtualMouseDisabled {
        log := log + [Click(Middle)];
      }
    }

    method HideMouseFrame()
      modifies this`stageShowing, this`log
      ensures stageShowing == (old(stageShowing) && !stageCreated)
      ensures log == old(log) + (if stageCreated then [StageHidden] else [])
    {
      if stageCreated {
        stageShowing := false;
        log := log + [StageHidden];
      }
    }

    method ModeStart(c: VirtualMouseParameters, screenWidth: real, screenHeight: real)
      modifies this`configuration, this`frameWidth, this`frameHeight, this`timePerPixelSpeed
      ensures configuration == Some(c)
      ensures frameWidth == screenWidth && frameHeight == screenHeight
      ensures timePerPixelSpeed == TimePerPixelFor(c.mouseSpeed)
      ensures SpeedFollowsConfiguration()
    {
      configuration := Some(c);
      frameWidth, frameHeight := screenWidth, screenHeight;
      timePerPixelSpeed := 1.0 / c.mouseSpeed * TimePerPixel;
    }

    /** While a configuration is running, `timePerPixelSpeed` is bound to its mouse speed. */
    predicate SpeedFollowsConfiguration()
      reads this
    {
      configuration.Some? ==> timePerPixelSpeed == TimePerPixelFor(configuration.value.mouseSpeed)
    }

    /**
     * The running configuration's `mouseSpeedProperty` changes: the binding made in
     * `modeStart` recomputes the time per pixel. Once `modeStop` has unbound it and
     * dropped the configuration, nothing changes.
     */
    method MouseSpeedChanged(speed: MouseSpeed)
      modifies this`configuration, this`timePerPixelSpeed
      ensures old(configuration).None? ==> configuration == None && timePerPixelSpeed == old(timePerPixelSpeed)
      ensures old(configuration).Some? ==>
                configuration == Some(old(configuration).value.(mouseSpeed := speed))
                && timePerPixelSpeed == TimePerPixelFor(speed)
      ensures SpeedFollowsConfiguration()
    {
      if configuration.Some? {
        configuration := Some(configuration.value.(mouseSpeed := speed));
        timePerPixelSpeed := 1.0 / speed * TimePerPixel;
      }
    }

    /**
     * The running configuration's `mainMouseDrawingProperty` changes. `isCurrentCursor`
     * reads it at each command, so a drawing other than POINTING silences every command.
     */
    method MainMouseDrawingChanged(drawing: VirtualMouseDrawing)
      modifies this`configuration
      ensures old(configuration).None? ==> configuration == None
      ensures old(configuration).Some? ==> configuration == Some(old(configuration).value.(mainMouseDrawing := drawing))
      ensures old(SpeedFollowsConfiguration()) ==> SpeedFollowsConfiguration()
      ensures IsCurrentCursor(configuration) <==> old(configuration).Some? && drawing == Pointing
    {
      if configuration.Some? {
        configuration := Some(configuration.value.(mainMouseDrawing := drawing));
      }
    }

    method ModeStop()
      requires Valid()
      modifies this`playing, this`keyFrames, this`stageShowing, this`log, this`configuration
      ensures Valid()
      ensures keyFrames == [] && !playing && !stageShowing && configuration == None
      ensures log == old(log) + (if stageCreated then [StageHidden] else [])
    {
      StopMovingMouse();
      HideMouseFrame();
      configuration := None;
    }
  }

  // ---------------------------------------------------------------------------
  // Properties
  // ---------------------------------------------------------------------------

  /**
   * Inside the frame, every axis move of a plan heads for the edge the direction
   * names, and its distance is the largest of the direction's edge gaps: the gap
   * itself for a straight move, the maximum of both gaps for a diagonal.
   */
  lemma MovePlanHeadsForEdges(direction: Direction, x: real, y: real, frameWidth: real, frameHeight: real)
    requires 0.0 <= x <= frameWidth && 0.0 <= y <= frameHeight
    ensures var plan := MovePlan(direction, x, y, frameWidth, frameHeight);
            && |plan| == (if direction in {Top, Bottom, Left, Right} then 1 else 2)
            && (|plan| == 2 ==> plan[0].axis == X && plan[1].axis == Y)
            && forall i :: 0 <= i < |plan| ==>
                 && EdgeTarget(direction, plan[i].axis, frameWidth, frameHeight) == Some(plan[i].target)
                 && plan[i].diff == Max(Gap(direction, X, x, y, frameWidth, frameHeight),
                                        Gap(direction, Y, x, y, frameWidth, frameHeight))
    ensures var plan := MovePlan(direction, x, y, frameWidth, frameHeight);
            && (EdgeTarget(direction, X, frameWidth, frameHeight).Some? ==> plan[0].axis == X)
            && (EdgeTarget(direction, Y, frameWidth, frameHeight).Some? ==> plan[|plan| - 1].axis == Y)
  {
  }

  /** A straight move's distance is exactly the gap to its edge. */
  lemma StraightMoveDistance(direction: Direction, x: real, y: real, frameWidth: real, frameHeight: real)
    requires direction in {Top, Bottom, Left, Right}
    requires 0.0 <= x <= frameWidth && 0.0 <= y <= frameHeight
    ensures var m := MovePlan(direction, x, y, frameWidth, frameHeight)[0];
            m.diff == Abs(m.target - Coordinate(m.axis, x, y))
  {
  }

  /** One `addKeyFrame` appends eleven frames: ten check frames, then the move frame. */
  lemma KeyFrameBatchShape(m: AxisMove, timePerPixel: real)
    ensures var b := KeyFrameBatch(m, timePerPixel);
            && |b| == NumberOfFrameCheck + 1
            && (forall i :: 0 <= i < NumberOfFrameCheck ==> b[i].CheckFrame?)
            && b[NumberOfFrameCheck] == MoveFrame(MoveDuration(m.diff, timePerPixel), m.axis, m.target)
  {
  }

  /**
   * For a non-negative distance and time per pixel, the check frames come in
   * non-decreasing time order, start at zero and never pass the move frame.
   */
  lemma CheckFramesOrdered(m: AxisMove, timePerPixel: real, i: int, j: int)
    requires 0.0 <= m.diff && 0.0 <= timePerPixel
    requires 0 <= i <= j < NumberOfFrameCheck
    ensures var b := KeyFrameBatch(m, timePerPixel);
            0 == b[0].time <= b[i].time <= b[j].time <= b[NumberOfFrameCheck].time
  {
    var b := KeyFrameBatch(m, timePerPixel);
    var total := MoveDuration(m.diff, timePerPixel);
    assert 0.0 <= m.diff * timePerPixel;
    assert total >= 0;
    var v := total / NumberOfFrameCheck;
    assert JavaDiv(total, NumberOfFrameCheck) == v;
    assert b[i].time == i * v && b[j].time == j * v;
    MulMonotone(i, j, v);
    MulMonotone(j, NumberOfFrameCheck, v);
    assert NumberOfFrameCheck * v <= total;
  }

  lemma CheckFramesPrefix(totalTime: int, i: nat)
    requires i < NumberOfFrameCheck
    ensures CheckFrames(totalTime)[..i + 1]
            == CheckFrames(totalTime)[..i] + [CheckFrame(i * JavaDiv(totalTime, NumberOfFrameCheck))]
  {
  }

  lemma MulMonotone(i: int, j: int, v: int)
    requires 0 <= i <= j && 0 <= v
    ensures 0 <= i * v <= j * v
  {
  }

  /** Each axis of a plan gets its own batch; the frame list grows by eleven frames per axis. */
  lemma {:induction false} PlanFramesLength(plan: seq<AxisMove>, timePerPixel: real)
    ensures |PlanFrames(plan, timePerPixel)| == (NumberOfFrameCheck + 1) * |plan|
  {
    if plan != [] {
      PlanFramesLength(plan[..|plan| - 1], timePerPixel);
    }
  }

  /** A diagonal move animates both axes over the same duration, so they arrive together. */
  lemma DiagonalAxesArriveTogether(direction: Direction, x: real, y: real, frameWidth: real,
                                   frameHeight: real, timePerPixel: real)
    requires direction in {TopLeft, TopRight, BottomRight, BottomLeft}
    ensures var frames := PlanFrames(MovePlan(direction, x, y, frameWidth, frameHeight), timePerPixel);
            |frames| == 22 && frames[10].MoveFrame? && frames[21].MoveFrame?
            && frames[10].axis == X && frames[21].axis == Y
            && frames[10].time == frames[21].time
  {
    var plan := MovePlan(direction, x, y, frameWidth, frameHeight);
    assert plan[..1][..0] == [];
    assert PlanFrames(plan[..1], timePerPixel) == KeyFrameBatch(plan[0], timePerPixel);
    assert plan[..|plan| - 1] == plan[..1];
    assert PlanFrames(plan, timePerPixel) == KeyFrameBatch(plan[0], timePerPixel) + KeyFrameBatch(plan[1], timePerPixel);
    KeyFrameBatchShape(plan[0], timePerPixel);
    KeyFrameBatchShape(plan[1], timePerPixel);
  }

  /** A move's duration is distance × 25 / speed, cast to `long`. */
  lemma MoveDurationFormula(diff: real, speed: MouseSpeed)
    ensures MoveDuration(diff, TimePerPixelFor(speed)) == LongCast(diff * TimePerPixel / speed)
    ensures 0.0 <= diff * TimePerPixel / speed < LongMax as real ==>
              MoveDuration(diff, TimePerPixelFor(speed)) == (diff * 25.0 / speed).Floor
  {
    assert diff * (1.0 / speed * TimePerPixel) == diff * TimePerPixel / speed;
  }

  /** A frame relocation is requested exactly when the mouse lies inside the main frame. */
  lemma RelocationOnlyInsideFrame(stageCreated: bool, stageShowing: bool, platform: Platform,
                                  frameWidth: real, frameHeight: real)
    ensures (exists e :: e in InitFrameEvents(stageCreated, stageShowing, platform, frameWidth, frameHeight)
                         && e.FrameMovedToAvoidMouse?)
            <==> !stageCreated && Contains(platform.mainFrameBounds, platform.initialX, platform.initialY)
  {
    if !stageCreated && Contains(platform.mainFrameBounds, platform.initialX, platform.initialY) {
      var e := FrameMovedToAvoidMouse(frameWidth, frameHeight, platform.initialX, platform.initialY);
      assert InitFrameEvents(stageCreated, stageShowing, platform, frameWidth, frameHeight)[2] == e;
    }
  }
}
