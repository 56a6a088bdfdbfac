/**
 * Stage placement (`StageUtils`): where `moveStageTo` puts a window of a given
 * size for each `FramePosition`, computed from the size of the primary screen's
 * visual bounds, and which window `getEditOrUseStageVisible` reports.
 *
 * The source reads the visual bounds so that windows stay off the task bar, but
 * uses only their width and height and never their origin. `PlacementAsWritten`
 * is that computation, and `MoveStageTo` follows it. `Placement` is the intended
 * placement, offset by the origin of the visual bounds (see the README's
 * findings). The two agree whenever the visual bounds start at (0, 0).
 */
module StagePlacement {
  import opened Wrappers
  import AppModeControl

  /** `FramePosition`; `Center` stands for the values the switch leaves to its default branch. */
  datatype FramePosition = TopLeft | Top | TopRight | Left | Center | Right | BottomLeft | Bottom | BottomRight

  /** The screen's visual bounds: the screen without the task bar. */
  datatype VisualBounds = VisualBounds(minX: real, minY: real, width: real, height: real)

  datatype Point = Point(x: real, y: real)

  /**
   * The switch of `moveStageTo` as written. `None` is the default branch, which
   * hands the stage to the platform's `centerOnScreen`.
   */
  function PlacementAsWritten(screen: VisualBounds, stageWidth: real, stageHeight: real,
                              position: FramePosition): (r: Option<Point>)
    ensures r.None? <==> position == Center
    ensures position in {TopLeft, Left, BottomLeft} ==> r.value.x == 0.0
    ensures position in {TopLeft, Top, TopRight} ==> r.value.y == 0.0
  {
    var centerX := screen.width / 2.0 - stageWidth / 2.0;
    var centerY := screen.height / 2.0 - stageHeight / 2.0;
    match position
    case BottomRight => Some(Point(screen.width - stageWidth, screen.height - stageHeight))
    case BottomLeft => Some(Point(0.0, screen.height - stageHeight))
    case TopRight => Some(Point(screen.width - stageWidth, 0.0))
    case TopLeft => Some(Point(0.0, 0.0))
    case Top => Some(Point(centerX, 0.0))
    case Left => Some(Point(0.0, centerY))
    case Right => Some(Point(screen.width - stageWidth, centerY))
    case Bottom => Some(Point(centerX, screen.height - stageHeight))
    case Center => None
  }

  /** The placement within the visual bounds: the written placement moved to their origin. */
  function Placement(screen: VisualBounds, stageWidth: real, stageHeight: real,
                     position: FramePosition): Option<Point>
  {
    match PlacementAsWritten(screen, stageWidth, stageHeight, position)
    case Some(p) => Some(Point(screen.minX + p.x, screen.minY + p.y))
    case None => None
  }

  class Stage {
    var x: real
    var y: real
    var width: real
    var height: real
    /** Set when the stage was handed to the platform's `centerOnScreen`. */
    var centeredOnScreen: bool

    constructor (width: real, height: real)
      ensures this.width == width && this.height == height
      ensures x == 0.0 && y == 0.0 && !centeredOnScreen
    {
      this.width, this.height := width, height;
      x, y := 0.0, 0.0;
      centeredOnScreen := false;
    }
  }

  method MoveStageTo(stage: Stage, position: FramePosition, screen: VisualBounds)
    modifies stage`x, stage`y, stage`centeredOnScreen
    ensures var p := PlacementAsWritten(screen, stage.width, stage.height, position);
            && (p.Some? ==> stage.x == p.value.x && stage.y == p.value.y
                            && stage.centeredOnScreen == old(stage.centeredOnScreen))
            && (p.None? ==> stage.x == old(stage.x) && stage.y == old(stage.y) && stage.centeredOnScreen)
  {
    var centerX := screen.width / 2.0 - stage.width / 2.0;
    var centerY := screen.height / 2.0 - stage.height / 2.0;
    var right := screen.width - stage.width;
    var bottom := screen.height - stage.height;
    match position {
      case BottomRight => stage.x, stage.y := right, bottom;
      case BottomLeft => stage.x, stage.y := 0.0, bottom;
      case TopRight => stage.x, stage.y := right, 0.0;
      case TopLeft => stage.x, stage.y := 0.0, 0.0;
      case Top => stage.x, stage.y := centerX, 0.0;
      case Left => stage.x, stage.y := 0.0, centerY;
      case Right => stage.x, stage.y := right, centerY;
      case Bottom => stage.x, stage.y := centerX, bottom;
      case Center => stage.centeredOnScreen := true;
    }
  }

  /** The window `getEditOrUseStageVisible` returns. */
  datatype ShownStage = EditModeStage | UseModeStage(stage: AppModeControl.UseStage)

  function EditOrUseStageVisible(mode: Option<AppModeControl.AppMode>,
                                 useStage: Option<AppModeControl.UseStage>): (r: ShownStage)
    ensures r == EditModeStage <==> mode == Some(AppModeControl.Edit) || useStage.None?
    ensures r.UseModeStage? ==> useStage == Some(r.stage)
  {
    if mode == Some(AppModeControl.Edit) || useStage.None? then EditModeStage else UseModeStage(useStage.value)
  }

  // ---------------------------------------------------------------------------
  // Properties
  // ---------------------------------------------------------------------------

  /** TOP_LEFT puts the stage at (0, 0); BOTTOM_LEFT puts it at x = 0 with its bottom on the bottom edge. */
  lemma LeftCorners(screen: VisualBounds, w: real, h: real)
    ensures PlacementAsWritten(screen, w, h, TopLeft) == Some(Point(0.0, 0.0))
    ensures var p := PlacementAsWritten(screen, w, h, BottomLeft).value;
            p.x == 0.0 && p.y + h == screen.height
  {
  }

  /** BOTTOM_RIGHT, TOP_RIGHT and RIGHT put the stage's right edge at the width of the bounds. */
  lemma RightPositionsMeetRightEdge(screen: VisualBounds, w: real, h: real, position: FramePosition)
    requires position in {BottomRight, TopRight, Right}
    ensures PlacementAsWritten(screen, w, h, position).Some?
    ensures PlacementAsWritten(screen, w, h, position).value.x + w == screen.width
  {
  }

  /** BOTTOM_RIGHT, BOTTOM_LEFT and BOTTOM put the stage's bottom edge at the height of the bounds. */
  lemma BottomPositionsMeetBottomEdge(screen: VisualBounds, w: real, h: real, position: FramePosition)
    requires position in {BottomRight, BottomLeft, Bottom}
    ensures PlacementAsWritten(screen, w, h, position).Some?
    ensures PlacementAsWritten(screen, w, h, position).value.y + h == screen.height
  {
  }

  /** TOP and BOTTOM centre the stage horizontally; LEFT and RIGHT centre it vertically. */
  lemma EdgeMiddlesAreCentred(screen: VisualBounds, w: real, h: real, position: FramePosition)
    requires position in {Top, Bottom, Left, Right}
    ensures var p := PlacementAsWritten(screen, w, h, position).value;
            && (position in {Top, Bottom} ==> p.x + w / 2.0 == screen.width / 2.0)
            && (position in {Left, Right} ==> p.y + h / 2.0 == screen.height / 2.0)
  {
  }

  /**
   * As written, a stage no larger than the visual bounds lies within a rectangle of
   * their size anchored at the screen origin, whatever their actual origin.
   */
  lemma AsWrittenStaysWithinSize(screen: VisualBounds, w: real, h: real, position: FramePosition)
    requires 0.0 <= w <= screen.width && 0.0 <= h <= screen.height
    requires position != Center
    ensures var p := PlacementAsWritten(screen, w, h, position);
            && p.Some?
            && 0.0 <= p.value.x && p.value.x + w <= screen.width
            && 0.0 <= p.value.y && p.value.y + h <= screen.height
  {
  }

  /**
   * The intended placement: a stage no larger than the visual bounds stays inside
   * them at every named position, wherever the bounds start.
   */
  lemma PlacementStaysInVisualBounds(screen: VisualBounds, w: real, h: real, position: FramePosition)
    requires 0.0 <= w <= screen.width && 0.0 <= h <= screen.height
    requires position != Center
    ensures var p := Placement(screen, w, h, position);
            && p.Some?
            && screen.minX <= p.value.x && p.value.x + w <= screen.minX + screen.width
            && screen.minY <= p.value.y && p.value.y + h <= screen.minY + screen.height
  {
  }

  /** When the visual bounds start at the screen origin, the written placement is the intended one. */
  lemma AsWrittenAgreesAtOrigin(screen: VisualBounds, w: real, h: real, position: FramePosition)
    requires screen.minX == 0.0 && screen.minY == 0.0
    ensures PlacementAsWritten(screen, w, h, position) == Placement(screen, w, h, position)
  {
  }

  /**
   * With the task bar at the top (visual bounds starting at y = 40), the written
   * TOP_LEFT placement puts the stage at y = 0, over the task bar.
   */
  lemma AsWrittenCoversTopTaskBar()
    ensures var screen := VisualBounds(0.0, 40.0, 1920.0, 1040.0);
            var p := PlacementAsWritten(screen, 800.0, 600.0, TopLeft).value;
            p.y < screen.minY
  {
  }

  /** After a successful start of use mode the use stage is the visible one. */
  lemma UseStageVisibleAfterSuccessfulStart(s: AppModeControl.State, c: AppModeControl.Configuration,
                                            d: Option<AppModeControl.Description>,
                                            profile: Option<AppModeControl.Profile>)
    ensures var r := AppModeControl.UseModeStarted(s, c, d, profile, AppModeControl.Succeeded);
            EditOrUseStageVisible(r.mode, r.useContext.stage)
            == UseModeStage(AppModeControl.UseStage(profile, c, d))
  {
  }

  /** After a start of edit mode, or a failed start of use mode, the edit stage is the visible one. */
  lemma EditStageVisibleAfterEditStart(s: AppModeControl.State, c: AppModeControl.Configuration,
                                       d: Option<AppModeControl.Description>,
                                       profile: Option<AppModeControl.Profile>, k: nat)
    ensures var r := AppModeControl.EditModeStarted(s, profile);
            EditOrUseStageVisible(r.mode, r.useContext.stage) == EditModeStage
    ensures var r := AppModeControl.UseModeStarted(s, c, d, profile, AppModeControl.FailedAfter(k));
            EditOrUseStageVisible(r.mode, r.useContext.stage) == EditModeStage
  {
  }
}
