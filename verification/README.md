# LifeCompanion core behaviour in Dafny

This project models four pieces of the LifeCompanion application (an assistive
communication tool built on JavaFX) and proves properties of them:

- **The application mode machine** (`AppModeController`). The mode is none, EDIT
  or USE. Changing it stops the outgoing mode. Stopping USE calls `modeStop` on a
  fixed list of nineteen use-mode listeners and saves the use information.
  Starting USE runs a background task that calls `modeStart` on the same list,
  with the selection controller last; if the task fails, the application falls
  back to edit mode. The controller is a class with `mode`, `useContext`,
  `editContext` and `log` fields. Every call into a collaborator appears as an
  event appended to `log`. Each method is proved equal to a function on a
  `State` value, and the properties are lemmas about those functions.
- **The virtual pointing mouse** (`PointingMouseController`). A direction command
  picks the frame edge to head for and a pixel distance. It appends ten check
  frames and one move frame per axis to the timeline's key-frame list, then
  plays the timeline. The guards decide which commands act. The class keeps the
  key-frame list as a `seq`, the mouse position and frame size as `real`, and
  the platform calls as a log.
- **Stage placement** (`StageUtils`). `moveStageTo` places a window at one of
  the named positions, computed from the width and height of the screen's visual
  bounds (the screen without the task bar) but not from where those bounds start.
  `getEditOrUseStageVisible` picks the window that is shown. The placement that
  also honours the origin of the visual bounds is modelled beside it as the
  intended behaviour (see Findings).
- **Configuration bindings** (`LCConfigBindingUtils`). Each binding has a field
  listener that turns a control change into an edit action, and a model listener
  that writes model changes back into the control. Each listener's guard is a
  function returning `Option` of the action or of the written value. The
  rounding `tolerantRound` is passed in as an arbitrary function.
  `createBindMapValue` mirrors map changes into a list; that list is a class
  updated in place.

Files:
- `wrappers.dfy`: `Option`, which stands for Java `null`.
- `java_arith.dfy`: Java's `(long)` and `(int)` casts of a `double`, and Java's
  integer division.
- `app_mode_controller.dfy`: the mode machine.
- `pointing_mouse_controller.dfy`: the pointing mouse.
- `stage_utils.dfy`: stage placement.
- `config_binding_utils.dfy`: the bindings.

## Model

| member | source | states |
|---|---|---|
| `AppModeControl.Profile.GetConfigurationById` | lifecompanion/lc-app/src/main/java/org/lifecompanion/controller/lifecycle/AppModeController.java:122 | the lookup finds a description exactly when the profile holds one for the id, and returns that one |
| `AppModeControl.AppModeController.IsUseMode` | lifecompanion/lc-app/src/main/java/org/lifecompanion/controller/lifecycle/AppModeController.java:97-99 | true in USE mode, and only when the mode is set and is not EDIT; false when the mode is null |
| `AppModeControl.AppModeController.IsEditMode` | lifecompanion/lc-app/src/main/java/org/lifecompanion/controller/lifecycle/AppModeController.java:101-103 | true in EDIT mode, and only when the mode is set and is not USE; false when the mode is null |
| `AppModeControl.AppModeController.NotifyUseModeListeners` | lifecompanion/lc-app/src/main/java/org/lifecompanion/controller/lifecycle/AppModeController.java:193 | the `forEach` over `USE_MODE_LISTENERS` appends one notification per listener, in list order, and changes nothing else |
| `AppModeControl.AppModeController.StopModeIfNeeded` | lifecompanion/lc-app/src/main/java/org/lifecompanion/controller/lifecycle/AppModeController.java:208-222 | the new state is `Stopped` of the old one: USE stops the listeners and saves only when a configuration exists, then records the stop and cleans the use context; EDIT records the stop and cleans the edit context |
| `AppModeControl.AppModeController.SetMode` | lifecompanion/lc-app/src/main/java/org/lifecompanion/controller/lifecycle/AppModeController.java:72-74 | setting the mode property runs `stopModeIfNeeded` on the old mode only when the value changes (`WithMode`) |
| `AppModeControl.AppModeController.ClearCurrentMode` | lifecompanion/lc-app/src/main/java/org/lifecompanion/controller/lifecycle/AppModeController.java:156-158 | the mode becomes null through the change listener, after which neither `isUseMode` nor `isEditMode` holds |
| `AppModeControl.AppModeController.StartEditMode` | lifecompanion/lc-app/src/main/java/org/lifecompanion/controller/lifecycle/AppModeController.java:107-127 | the new state is `EditModeStarted` of the old one: the used configuration is read before the mode changes |
| `AppModeControl.AppModeController.RunUseModeTask` | lifecompanion/lc-app/src/main/java/org/lifecompanion/controller/lifecycle/AppModeController.java:187-197 | the task logs scene creation, loading, each listener's start and the stats record, in order, up to the step that fails; it reports success exactly when no step fails |
| `AppModeControl.AppModeController.LaunchUseMode` | lifecompanion/lc-app/src/main/java/org/lifecompanion/controller/lifecycle/AppModeController.java:182-206 | on success the use stage is created and shown and the edit stage hidden; on failure `startEditMode` runs |
| `AppModeControl.AppModeController.StartUseModeForConfiguration` | lifecompanion/lc-app/src/main/java/org/lifecompanion/controller/lifecycle/AppModeController.java:133-139 | switch the use context, set the mode to USE, launch |
| `AppModeControl.AppModeController.SwitchUseModeConfiguration` | lifecompanion/lc-app/src/main/java/org/lifecompanion/controller/lifecycle/AppModeController.java:149-154 | clear the mode, then start use mode for the new configuration |
| `AppModeControl.UseModeListenersShape` | lifecompanion/lc-app/src/main/java/org/lifecompanion/controller/lifecycle/AppModeController.java:160-180 | the listener list has nineteen distinct entries, and the selection controller is the last |
| `AppModeControl.ListenerIsOnList` | lifecompanion/lc-app/src/main/java/org/lifecompanion/controller/lifecycle/AppModeController.java:160-180 | every listener kind is on the list |
| `AppModeControl.ListenerCalledOnce` | lifecompanion/lc-app/src/main/java/org/lifecompanion/controller/lifecycle/AppModeController.java:193 | a walk over a list of distinct listeners notifies each listener once if it is on the list, and never otherwise |
| `AppModeControl.ListenerCallsPhase` | lifecompanion/lc-app/src/main/java/org/lifecompanion/controller/lifecycle/AppModeController.java:193 | every notification of a walk is of the walk's own phase and configuration |
| `AppModeControl.SettingSameModeStopsNothing` | lifecompanion/lc-app/src/main/java/org/lifecompanion/controller/lifecycle/AppModeController.java:72-74 | setting the current mode again changes nothing and logs nothing |
| `AppModeControl.ModeQueriesExclusive` | lifecompanion/lc-app/src/main/java/org/lifecompanion/controller/lifecycle/AppModeController.java:97-103 | `isUseMode` and `isEditMode` of a controller are never both true, one of them holds whenever a mode is set, and clearing the mode leaves it null |
| `AppModeControl.LeavingUseStopsEachListenerOnce` | lifecompanion/lc-app/src/main/java/org/lifecompanion/controller/lifecycle/AppModeController.java:208-216 | leaving USE with a configuration logs exactly the nineteen stops in list order, then the save, then the stats stop; each listener is stopped exactly once and the use context is cleaned |
| `AppModeControl.LeavingUseWithoutConfiguration` | lifecompanion/lc-app/src/main/java/org/lifecompanion/controller/lifecycle/AppModeController.java:209-216 | leaving USE without a configuration logs only the stats stop and still cleans the use context |
| `AppModeControl.LeavingEditTouchesNoListener` | lifecompanion/lc-app/src/main/java/org/lifecompanion/controller/lifecycle/AppModeController.java:218-221 | leaving EDIT logs only the stats stop, leaves the use context alone and moves the edited configuration to "previous" |
| `AppModeControl.EnteringUseKeepsUseContext` | lifecompanion/lc-app/src/main/java/org/lifecompanion/controller/lifecycle/AppModeController.java:135-136 | setting USE from another mode does not clean the use context that was just switched in |
| `AppModeControl.StartingUseFromEditStartsListenersInOrder` | lifecompanion/lc-app/src/main/java/org/lifecompanion/controller/lifecycle/AppModeController.java:190-203 | a successful start from EDIT logs the edit stop, scene initialisation, loading, all nineteen starts in list order with the selection controller last, the stats start, then the stage swap; no listener call follows the selection controller |
| `AppModeControl.RestartingUseInPlaceStopsNothing` | lifecompanion/lc-app/src/main/java/org/lifecompanion/controller/lifecycle/AppModeController.java:133-139 | starting use mode while already in USE stops no listener, because the property does not change |
| `AppModeControl.SwitchingStopsOldBeforeStartingNew` | lifecompanion/lc-app/src/main/java/org/lifecompanion/controller/lifecycle/AppModeController.java:149-154 | switching the use configuration logs every stop for the old configuration and its save before any start for the new one |
| `AppModeControl.SwitchStopsOldFirstWhateverTheOutcome` | lifecompanion/lc-app/src/main/java/org/lifecompanion/controller/lifecycle/AppModeController.java:149-154 | whether the new start succeeds or fails, the stops and the save for the old configuration come first in the new log |
| `AppModeControl.ModeChangeAppendsStopEvents` | lifecompanion/lc-app/src/main/java/org/lifecompanion/controller/lifecycle/AppModeController.java:208-222 | a mode change only appends stop notifications, the save and stats stops to the log, and keeps the earlier log |
| `AppModeControl.EditModeStartedResult` | lifecompanion/lc-app/src/main/java/org/lifecompanion/controller/lifecycle/AppModeController.java:107-126 | after `startEditMode` the mode is EDIT, the use context is as the mode change left it, the previous configuration is cleared, and the log gains the edit stage being shown, followed by an open action only when there was no previous configuration but a used configuration and a profile |
| `AppModeControl.StartEditModeChoosesConfiguration` | lifecompanion/lc-app/src/main/java/org/lifecompanion/controller/lifecycle/AppModeController.java:107-126 | `startEditMode` restores the previous edit configuration if there is one; otherwise it opens the used configuration only when it and a profile exist; it always clears the previous configuration and ends in EDIT |
| `AppModeControl.FailedStartIsEditStart` | lifecompanion/lc-app/src/main/java/org/lifecompanion/controller/lifecycle/AppModeController.java:198-204 | a failed start is `startEditMode` run from use mode on the switched context, once the task steps that ran are logged |
| `AppModeControl.FailedStartFallsBackToEditOnce` | lifecompanion/lc-app/src/main/java/org/lifecompanion/controller/lifecycle/AppModeController.java:198-204 | after a failed start the mode is EDIT, the use context is clean, all nineteen listeners are stopped after the steps that ran, and nothing starts again |
| `PointingMouse.CommandActs` | lifecompanion/lc-app/src/main/java/org/lifecompanion/controller/virtualmouse/PointingMouseController.java:169-325 | movement, double, secondary and middle clicks act only with a POINTING cursor and the virtual mouse not disabled; the primary click checks only the cursor |
| `PointingMouse.IsCurrentCursor` | lifecompanion/lc-app/src/main/java/org/lifecompanion/controller/virtualmouse/PointingMouseController.java:374-376 | true exactly for a configuration whose main drawing is POINTING; false without a configuration |
| `PointingMouse.MovePlan` | lifecompanion/lc-app/src/main/java/org/lifecompanion/controller/virtualmouse/PointingMouseController.java:167-246 | a straight direction moves one axis (Y for top and bottom, X for left and right); a diagonal moves X then Y by the same distance |
| `PointingMouse.Contains` | lifecompanion/lc-app/src/main/java/org/lifecompanion/controller/virtualmouse/PointingMouseController.java:133 | a point is in the main frame when it lies in the closed rectangle |
| `PointingMouse.PointingMouseController.CheckFramePositionWithMouse` | lifecompanion/lc-app/src/main/java/org/lifecompanion/controller/virtualmouse/PointingMouseController.java:131-136 | a move of the main frame is requested exactly when the mouse lies inside it |
| `PointingMouse.PointingMouseController.CheckInitFrame` | lifecompanion/lc-app/src/main/java/org/lifecompanion/controller/virtualmouse/PointingMouseController.java:348-372 | the stage ends created and shown; on first use the mouse goes to its initial position and the frame is checked |
| `PointingMouse.PointingMouseController.AddKeyFrame` | lifecompanion/lc-app/src/main/java/org/lifecompanion/controller/virtualmouse/PointingMouseController.java:262-272 | the list grows by the ten check frames at `i * (totalTime / 10)` and then the move frame at `(long) (diff * timePerPixel)` |
| `PointingMouse.PointingMouseController.AddPlanKeyFrames` | lifecompanion/lc-app/src/main/java/org/lifecompanion/controller/virtualmouse/PointingMouseController.java:170-245 | the `addKeyFrame` calls of one direction append one batch per axis, in plan order |
| `PointingMouse.PointingMouseController.StopMovingMouse` | lifecompanion/lc-app/src/main/java/org/lifecompanion/controller/virtualmouse/PointingMouseController.java:274-277 | the timeline stops and its key-frame list is empty |
| `PointingMouse.PointingMouseController.StartMoving` | lifecompanion/lc-app/src/main/java/org/lifecompanion/controller/virtualmouse/PointingMouseController.java:254-260 | the timeline plays and scanning pauses until the next selection |
| `PointingMouse.PointingMouseController.StartMovingMouse` | lifecompanion/lc-app/src/main/java/org/lifecompanion/controller/virtualmouse/PointingMouseController.java:167-246 | a guarded direction command changes nothing; otherwise it shows the stage, appends the frames of the direction's plan from the current position and plays |
| `PointingMouse.PointingMouseController.FrameToFront` | lifecompanion/lc-app/src/main/java/org/lifecompanion/controller/virtualmouse/PointingMouseController.java:327-339 | the stages are brought to front |
| `PointingMouse.PointingMouseController.ExecutePrimaryMouseClic` | lifecompanion/lc-app/src/main/java/org/lifecompanion/controller/virtualmouse/PointingMouseController.java:281-290 | with a POINTING cursor: the stage is shown, the mouse is at its old position or, on first use, the initial one; the real mouse moves there, button 1 is clicked and the stages come to front; otherwise nothing changes |
| `PointingMouse.PointingMouseController.ExecuteDoubleMouseClic` | lifecompanion/lc-app/src/main/java/org/lifecompanion/controller/virtualmouse/PointingMouseController.java:292-301 | when enabled: the stage is shown, the mouse is at its old or initial position, the real mouse moves there, button 1 is clicked twice and the stages come to front; otherwise nothing changes |
| `PointingMouse.PointingMouseController.ExecuteSecondaryMouseClic` | lifecompanion/lc-app/src/main/java/org/lifecompanion/controller/virtualmouse/PointingMouseController.java:303-311 | when enabled: the stage is shown, the mouse is at its old or initial position, the real mouse moves there, button 3 is clicked and the stages come to front; otherwise nothing changes |
| `PointingMouse.PointingMouseController.PressMouseMiddleClic` | lifecompanion/lc-app/src/main/java/org/lifecompanion/controller/virtualmouse/PointingMouseController.java:313-317 | when enabled, click button 2 where the real mouse is, without the stage |
| `PointingMouse.PointingMouseController.HideMouseFrame` | lifecompanion/lc-app/src/main/java/org/lifecompanion/controller/virtualmouse/PointingMouseController.java:248-252 | an existing stage is hidden |
| `PointingMouse.PointingMouseController.ModeStart` | lifecompanion/lc-app/src/main/java/org/lifecompanion/controller/virtualmouse/PointingMouseController.java:380-394 | the configuration and screen size are kept, the time per pixel is `1 / speed * 25`, and the binding between the two holds |
| `PointingMouse.PointingMouseController.MouseSpeedChanged` | lifecompanion/lc-app/src/main/java/org/lifecompanion/controller/virtualmouse/PointingMouseController.java:387-389 | while a configuration runs, a new mouse speed replaces the configuration's and the bound time per pixel becomes `1 / speed * 25`; after `modeStop` nothing changes |
| `PointingMouse.PointingMouseController.MainMouseDrawingChanged` | lifecompanion/lc-app/src/main/java/org/lifecompanion/controller/virtualmouse/PointingMouseController.java:374-376 | while a configuration runs, a new main drawing replaces the configuration's, so `isCurrentCursor` holds afterwards exactly when the new drawing is POINTING; the speed binding is kept |
| `PointingMouse.PointingMouseController.ModeStop` | lifecompanion/lc-app/src/main/java/org/lifecompanion/controller/virtualmouse/PointingMouseController.java:397-407 | the key-frame list is empty, the timeline stopped, the stage hidden and the configuration null |
| `PointingMouse.MovePlanHeadsForEdges` | lifecompanion/lc-app/src/main/java/org/lifecompanion/controller/virtualmouse/PointingMouseController.java:167-246 | inside the frame each axis move heads for the edge the direction names: top and left to 0, bottom and right to the frame size; its distance is the edge gap, and for a diagonal both axes get the larger of the two gaps |
| `PointingMouse.StraightMoveDistance` | lifecompanion/lc-app/src/main/java/org/lifecompanion/controller/virtualmouse/PointingMouseController.java:167-202 | a straight move's distance is the distance from the coordinate to its target edge |
| `PointingMouse.KeyFrameBatchShape` | lifecompanion/lc-app/src/main/java/org/lifecompanion/controller/virtualmouse/PointingMouseController.java:262-272 | one `addKeyFrame` appends eleven frames: ten check frames, then the move frame |
| `PointingMouse.CheckFramesOrdered` | lifecompanion/lc-app/src/main/java/org/lifecompanion/controller/virtualmouse/PointingMouseController.java:263-270 | check times start at 0, never decrease and never pass the move frame's time |
| `PointingMouse.PlanFramesLength` | lifecompanion/lc-app/src/main/java/org/lifecompanion/controller/virtualmouse/PointingMouseController.java:170-245 | a plan appends eleven frames per axis move |
| `PointingMouse.DiagonalAxesArriveTogether` | lifecompanion/lc-app/src/main/java/org/lifecompanion/controller/virtualmouse/PointingMouseController.java:204-246 | both axes of a diagonal get move frames at the same time, so they arrive together |
| `PointingMouse.MoveDurationFormula` | lifecompanion/lc-app/src/main/java/org/lifecompanion/controller/virtualmouse/PointingMouseController.java:387-389 | a move lasts `(long) (distance * 25 / speed)`, the floor of that value when it is in range |
| `PointingMouse.RelocationOnlyInsideFrame` | lifecompanion/lc-app/src/main/java/org/lifecompanion/controller/virtualmouse/PointingMouseController.java:359-368 | the first show requests a frame move exactly when the initial mouse point lies in the main frame |
| `JavaArith.LongCast` | lifecompanion/lc-app/src/main/java/org/lifecompanion/controller/virtualmouse/PointingMouseController.java:263 | the `(long)` cast of a `double` lies in the `long` range and equals the floor of any non-negative value below the largest `long`, and any whole number within the `long` range converts exactly |
| `JavaArith.JavaDiv` | lifecompanion/lc-app/src/main/java/org/lifecompanion/controller/virtualmouse/PointingMouseController.java:267 | integer division truncates toward zero: with a positive divisor, the Euclidean quotient for a non-negative dividend and the negated quotient of its absolute value for a negative one |
| `JavaArith.IntCast` | lifecompanion/lc-app/src/main/java/org/lifecompanion/config/data/common/LCConfigBindingUtils.java:196 | the `(int)` cast of a `double` lies in the `int` range and equals the floor of any non-negative value below the largest `int`, and any whole number within the `int` range converts exactly |
| `StagePlacement.MoveStageTo` | lifecompanion/lc-app/src/main/java/org/lifecompanion/util/StageUtils.java:36-77 | every named position sets x and y to the written placement, computed from the width and height of the visual bounds only; any other value centres the stage on screen and leaves x and y alone |
| `StagePlacement.PlacementAsWritten` | lifecompanion/lc-app/src/main/java/org/lifecompanion/util/StageUtils.java:38-76 | the default branch is the only one without a position; the left positions have x = 0 and the top positions y = 0 |
| `StagePlacement.EditOrUseStageVisible` | lifecompanion/lc-app/src/main/java/org/lifecompanion/util/StageUtils.java:79-81 | the edit stage when the mode is EDIT or there is no use stage; the use stage otherwise |
| `StagePlacement.LeftCorners` | lifecompanion/lc-app/src/main/java/org/lifecompanion/util/StageUtils.java:45-56 | TOP_LEFT puts the stage at (0, 0); BOTTOM_LEFT puts it at x = 0 with y + h equal to the height of the bounds |
| `StagePlacement.RightPositionsMeetRightEdge` | lifecompanion/lc-app/src/main/java/org/lifecompanion/util/StageUtils.java:41-68 | BOTTOM_RIGHT, TOP_RIGHT and RIGHT set x so that x + w equals the width of the bounds |
| `StagePlacement.BottomPositionsMeetBottomEdge` | lifecompanion/lc-app/src/main/java/org/lifecompanion/util/StageUtils.java:41-72 | BOTTOM_RIGHT, BOTTOM_LEFT and BOTTOM set y so that y + h equals the height of the bounds |
| `StagePlacement.EdgeMiddlesAreCentred` | lifecompanion/lc-app/src/main/java/org/lifecompanion/util/StageUtils.java:38-72 | TOP and BOTTOM centre horizontally on half the width; LEFT and RIGHT centre vertically on half the height |
| `StagePlacement.AsWrittenStaysWithinSize` | lifecompanion/lc-app/src/main/java/org/lifecompanion/util/StageUtils.java:38-72 | as written, a stage no larger than the bounds lies within a rectangle of their size at the screen origin, whatever the bounds' actual origin |
| `StagePlacement.PlacementStaysInVisualBounds` | lifecompanion/lc-app/src/main/java/org/lifecompanion/util/StageUtils.java:37-72 | the intended placement, offset by the origin of the visual bounds, keeps a stage no larger than the bounds inside them at every named position |
| `StagePlacement.AsWrittenAgreesAtOrigin` | lifecompanion/lc-app/src/main/java/org/lifecompanion/util/StageUtils.java:37-72 | the computation as written is the intended one when the visual bounds start at the origin |
| `StagePlacement.AsWrittenCoversTopTaskBar` | lifecompanion/lc-app/src/main/java/org/lifecompanion/util/StageUtils.java:53-56 | with a task bar at the top, the written TOP_LEFT placement puts the stage over the task bar |
| `StagePlacement.UseStageVisibleAfterSuccessfulStart` | lifecompanion/lc-app/src/main/java/org/lifecompanion/util/StageUtils.java:79-81 | after a successful use-mode start the visible stage is the new use stage |
| `StagePlacement.EditStageVisibleAfterEditStart` | lifecompanion/lc-app/src/main/java/org/lifecompanion/util/StageUtils.java:79-81 | after an edit start, or a failed use start, the visible stage is the edit stage |
| `ConfigBinding.SliderFieldAction` | lifecompanion/lc-app/src/main/java/org/lifecompanion/config/data/common/LCConfigBindingUtils.java:52-62 | no action while the slider is changing or without a model; otherwise an action with the rounded value exactly when the rounded values differ |
| `ConfigBinding.SliderChangingEnded` | lifecompanion/lc-app/src/main/java/org/lifecompanion/config/data/common/LCConfigBindingUtils.java:65-69 | no action while changing; when changing ends, the rounded slider value is resubmitted to the field listener |
| `ConfigBinding.SliderModelUpdate` | lifecompanion/lc-app/src/main/java/org/lifecompanion/config/data/common/LCConfigBindingUtils.java:71-75 | the slider is adjusted to the rounded model value exactly when the rounded values differ |
| `ConfigBinding.SliderEchoSuppressed` | lifecompanion/lc-app/src/main/java/org/lifecompanion/config/data/common/LCConfigBindingUtils.java:52-75 | when rounding is stable on the model value, the adjustment it causes fires no action and no further adjustment |
| `ConfigBinding.SliderChangeEndSubmitsRoundedValue` | lifecompanion/lc-app/src/main/java/org/lifecompanion/config/data/common/LCConfigBindingUtils.java:65-69 | the action sent at the end of a change carries the rounded slider value, and fires exactly when it differs from the model's |
| `ConfigBinding.SelectionFieldAction` | lifecompanion/lc-app/src/main/java/org/lifecompanion/config/data/common/LCConfigBindingUtils.java:116-125 | with a model, an action with the converted item exactly when the model's converted value differs from the selection |
| `ConfigBinding.SelectionModelUpdate` | lifecompanion/lc-app/src/main/java/org/lifecompanion/config/data/common/LCConfigBindingUtils.java:127-134 | null model values are ignored; otherwise the converted value is selected exactly when it differs from the selection |
| `ConfigBinding.SelectionEchoSuppressed` | lifecompanion/lc-app/src/main/java/org/lifecompanion/config/data/common/LCConfigBindingUtils.java:116-134 | an item selected because of a model change fires no action and is not selected again |
| `ConfigBinding.SelectionWithoutConverters` | lifecompanion/lc-app/src/main/java/org/lifecompanion/config/data/common/LCConfigBindingUtils.java:89-91 | the overload without converters sends the selected item itself |
| `ConfigBinding.IntSpinnerFieldAction` | lifecompanion/lc-app/src/main/java/org/lifecompanion/config/data/common/LCConfigBindingUtils.java:141-149 | with a model, an action exactly when the model's int differs from the new value |
| `ConfigBinding.IntSpinnerModelUpdate` | lifecompanion/lc-app/src/main/java/org/lifecompanion/config/data/common/LCConfigBindingUtils.java:151-155 | the spinner is written exactly when its value differs from the model's |
| `ConfigBinding.IntSpinnerRoundTrip` | lifecompanion/lc-app/src/main/java/org/lifecompanion/config/data/common/LCConfigBindingUtils.java:141-156 | neither listener echoes the other's write |
| `ConfigBinding.DoubleSpinnerFieldAction` | lifecompanion/lc-app/src/main/java/org/lifecompanion/config/data/common/LCConfigBindingUtils.java:166-176 | no action without a model or when the condition fails; otherwise an action with the unrounded value exactly when the rounded values differ |
| `ConfigBinding.DoubleSpinnerModelUpdate` | lifecompanion/lc-app/src/main/java/org/lifecompanion/config/data/common/LCConfigBindingUtils.java:178-182 | the spinner is written exactly when the rounded values differ |
| `ConfigBinding.NullConditionAlwaysHolds` | lifecompanion/lc-app/src/main/java/org/lifecompanion/config/data/common/LCConfigBindingUtils.java:159-171 | a null condition acts as a condition that always holds |
| `ConfigBinding.DoubleSpinnerEchoSuppressed` | lifecompanion/lc-app/src/main/java/org/lifecompanion/config/data/common/LCConfigBindingUtils.java:166-182 | a value written by the model listener fires no action |
| `ConfigBinding.IntToDoubleSpinnerFieldAction` | lifecompanion/lc-app/src/main/java/org/lifecompanion/config/data/common/LCConfigBindingUtils.java:190-199 | with a model, an action with `(int) (value * factor)` exactly when the rounded model value over the factor differs from the rounded new value |
| `ConfigBinding.IntToDoubleSpinnerModelUpdate` | lifecompanion/lc-app/src/main/java/org/lifecompanion/config/data/common/LCConfigBindingUtils.java:201-205 | the spinner is written with the model value over the factor exactly when the rounded values differ |
| `ConfigBinding.IntToDoubleRoundTrip` | lifecompanion/lc-app/src/main/java/org/lifecompanion/config/data/common/LCConfigBindingUtils.java:187-207 | for any non-zero factor, a spinner value that the factor maps to a whole number within the `int` range, negative or not, stores that number, and the model listener then writes nothing back |
| `ConfigBinding.SimpleFieldAction` | lifecompanion/lc-app/src/main/java/org/lifecompanion/config/data/common/LCConfigBindingUtils.java:212-221 | with a model, the transformed value is sent exactly when it differs from the model's |
| `ConfigBinding.SimpleModelUpdate` | lifecompanion/lc-app/src/main/java/org/lifecompanion/config/data/common/LCConfigBindingUtils.java:224-229 | the transformed model value is written exactly when it differs from the field's |
| `ConfigBinding.SimpleBindingEcho` | lifecompanion/lc-app/src/main/java/org/lifecompanion/config/data/common/LCConfigBindingUtils.java:209-235 | a value written by the model listener comes back as an action exactly when transforming twice changes the model value; never without a transformer |
| `ConfigBinding.IndexOf` | lifecompanion/lc-app/src/main/java/org/lifecompanion/config/data/common/LCConfigBindingUtils.java:248 | the first position of a value in the list, or -1 when it is absent |
| `ConfigBinding.RemoveFirstAt` | lifecompanion/lc-app/src/main/java/org/lifecompanion/config/data/common/LCConfigBindingUtils.java:248 | removing a value cuts out exactly its first occurrence |
| `ConfigBinding.RemoveFirstAbsent` | lifecompanion/lc-app/src/main/java/org/lifecompanion/config/data/common/LCConfigBindingUtils.java:248 | removing an absent value leaves the list as it is |
| `ConfigBinding.RemoveFirstMultiset` | lifecompanion/lc-app/src/main/java/org/lifecompanion/config/data/common/LCConfigBindingUtils.java:248 | removal takes away one occurrence of the value and changes no other count |
| `ConfigBinding.MirroredList.OnMapChange` | lifecompanion/lc-app/src/main/java/org/lifecompanion/config/data/common/LCConfigBindingUtils.java:240-251 | the list becomes the old list with the added value appended and then the first occurrence of the removed value taken out |
| `ConfigBinding.MirroredContents` | lifecompanion/lc-app/src/main/java/org/lifecompanion/config/data/common/LCConfigBindingUtils.java:240-251 | one map change adds the added value and takes away one occurrence of the removed one, and nothing else |
| `ConfigBinding.MirroredNullChange` | lifecompanion/lc-app/src/main/java/org/lifecompanion/config/data/common/LCConfigBindingUtils.java:242-250 | a change with neither value leaves the list as it is |
| `ConfigBinding.MirroredReplaceSameValueMovesToEnd` | lifecompanion/lc-app/src/main/java/org/lifecompanion/config/data/common/LCConfigBindingUtils.java:242-250 | since adding comes before removing, replacing a value by itself moves it from its first place to the end |

## Left out

- Threading: `runOnFXThread`, `LCTask` and the async executor are treated as sequential steps. The background task either succeeds or fails after some number of steps.
- Animation and platform calls: the EASE_IN interpolation, timeline playback, screen and stage queries, AWT clicks, focus handling, the debugging print and logging. The screen size, the initial mouse point, the main frame bounds and the `DISABLE_VIRTUAL_MOUSE` flag are parameters. Each call appears only as a log event.
- Collaborators: IOManager, SessionStatsController, ProfileController, the mode listeners, SelectionModeController, VirtualMouseController and ConfigActionController appear only as log events or as returned actions.
- `UseModeContext` and `EditModeContext` are not part of this model. Their `switchTo`, `cleanAfterStop` and `clearPreviouslyEditedConfiguration` are modelled as follows: use cleaning clears the configuration, description and stage; edit cleaning moves the edited configuration to "previous" and clears it.
- `startUseModeAfterEdit`, `switchEditModeConfiguration` and `closeEditModeConfiguration` are outside the modelled core. The configuration duplication they do is left out too.
- The `(int)` and `(long)` casts are modelled exactly, as truncation and then saturation. Floating-point rounding of the `double` arithmetic is not modelled: all values are `real`.
- `tolerantRound` (LCUtils) is not part of this model. It is a parameter, and the echo lemmas state the stability they need from it as a precondition.
- A mouse speed of zero or below is excluded by the `MouseSpeed` type. In the source a zero speed would give an infinite time per pixel and a negative one a negative time per pixel.
- PointingMouse.PointingMouseController.ModeStart: the configuration's virtual-mouse parameters are held as a value, not shared with the configuration. A change of the mouse speed or the main drawing reaches the controller only through `MouseSpeedChanged` and `MainMouseDrawingChanged`, which stand for the binding and the live read. Other holders of the same configuration object are not modelled.
- PointingMouse.PointingMouseController.AddKeyFrame: does not model JavaFX refusing negative key-frame times. A mouse outside the frame can give one, and the model appends it anyway.
- PointingMouse.IsCurrentCursor: with no configuration the source throws `NullPointerException` before changing anything. The model treats that as a command with no effect.
- ConfigBinding.SelectionModelUpdate: the source compares the selected item by reference (`!=`). The model compares by value, as the field listener's `safeEquals` does.
- ConfigBinding.SimpleFieldAction: the source compares by reference (`!=`). The model compares by value.
- ConfigBinding.SimpleModelUpdate: the source compares by reference (`!=`). The model compares by value.
- ConfigBinding.IntSpinnerFieldAction: the model's value is taken to be an int already. `Number.intValue` truncation of other number types is not modelled.
- ConfigBinding.SliderModelUpdate: returns the value passed to `adjustValue`. The slider's clamping of that value to its range is not modelled.
- Timeline playback is left out, so `mouseX` and `mouseY` do not move after a move command. A later move or click in the model starts from the position before the move, where the source starts from wherever the animation got to.
- ConfigBinding.IntToDoubleSpinnerFieldAction: requires a non-zero factor. The source accepts a zero factor and divides to an infinite or NaN value without throwing.
- ConfigBinding.IntToDoubleSpinnerModelUpdate: requires a non-zero factor, for the same reason.
- Colour, stroke, size-scale and cursor-drawing bindings of `modeStart`/`modeStop` are cosmetic and left out.
- `FramePosition` and `centerOnScreen` are not part of this model. Positions other than the eight named ones fall to the default branch, and that branch only records that the stage was centred.

## Findings

| source | as written | input that shows it | evidently intended | confidence | as-written member | corrected member |
|---|---|---|---|---|---|---|
| lifecompanion/lc-app/src/main/java/org/lifecompanion/util/StageUtils.java:37-72 | the position is computed from the width and height of the visual bounds only, from origin (0, 0) | visual bounds (0, 40, 1920, 1040) with the task bar on top, an 800×600 stage, TOP_LEFT: y = 0, under the task bar | offset every position by the visual bounds' origin, so the window stays off the task bar (the comment on line 37) | medium, not executed | `StagePlacement.AsWrittenCoversTopTaskBar` | `StagePlacement.PlacementStaysInVisualBounds` |

