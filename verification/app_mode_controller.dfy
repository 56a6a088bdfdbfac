/**
 * The application mode state machine of LifeCompanion (`AppModeController`).
 *
 * The controller holds the current mode (none, EDIT or USE) in an observable
 * property whose change listener stops the outgoing mode. Leaving USE calls
 * `modeStop` on a fixed, ordered list of nineteen use-mode listeners and saves
 * the use information; entering USE runs a background task that initialises the
 * use scene, loads the use information and calls `modeStart` on the same list.
 *
 * Every call into a collaborator that is not modelled (the listeners, the I/O
 * manager, the session statistics, the stages, the action controller) is an
 * `Event` appended to a log. Marshalling onto the FX thread and the background
 * task are sequential, atomic steps.
 *
 * The state is a class (the source mutates it in place); each method is proved
 * to produce exactly the state given by a specification function over the
 * `State` value, and the properties of the mode machine are lemmas about those
 * functions.
 */
module AppModeControl {
  import opened Wrappers

  datatype AppMode = Edit | Use

  /** A configuration, identified by its ID (its content is not modelled). */
  datatype Configuration = Configuration(id: string)

  datatype Description = Description(configurationId: string, name: string)

  /** A user profile, seen only through `getConfigurationById`. */
  datatype Profile = Profile(configurations: map<string, Description>)
  {
    function GetConfigurationById(id: string): (r: Option<Description>)
      ensures r.Some? <==> id in configurations
      ensures r.Some? ==> r.value == configurations[id]
    {
      if id in configurations then Some(configurations[id]) else None
    }
  }

  /** The stage built when use mode starts, from the values handed to its constructor. */
  datatype UseStage = UseStage(profile: Option<Profile>, configuration: Configuration, description: Option<Description>)

  datatype UseModeContext = UseModeContext(
    configuration: Option<Configuration>,
    description: Option<Description>,
    stage: Option<UseStage>)
  {
    function SwitchTo(c: Option<Configuration>, d: Option<Description>): UseModeContext
    {
      this.(configuration := c, description := d)
    }

    /** After use mode stops nothing of the session is kept. */
    function CleanedAfterStop(): UseModeContext
    {
      UseModeContext(None, None, None)
    }
  }

  datatype EditModeContext = EditModeContext(
    configuration: Option<Configuration>,
    description: Option<Description>,
    previousConfiguration: Option<Configuration>,
    previousDescription: Option<Description>)
  {
    function SwitchTo(c: Option<Configuration>, d: Option<Description>): EditModeContext
    {
      this.(configuration := c, description := d)
    }

    /** Leaving edit mode remembers the edited configuration so that it can be restored. */
    function CleanedAfterStop(): EditModeContext
    {
      EditModeContext(None, None, configuration, description)
    }

    function ClearedPreviouslyEdited(): EditModeContext
    {
      this.(previousConfiguration := None, previousDescription := None)
    }
  }

  /** The subsystems notified when use mode starts and stops. */
  datatype Listener =
    | PluginManager
    | WordPredictionController
    | VirtualKeyboardController
    | VirtualMouseController
    | WritingStateController
    | CustomCharPredictionController
    | AutoCharPredictionController
    | UserActionController
    | UseVariableController
    | KeyListController
    | UserActionSequenceController
    | UseModeProgressDisplayerController
    | SoundPlayer
    | VoiceSynthesizerController
    | NoteKeyController
    | ImageDictionaries
    | GlobalKeyEventManager
    | WinAutoHotKeyKeyboardReceiverController
    | SelectionModeController

  /** `USE_MODE_LISTENERS`, in its significant order: selection last, because it starts scanning. */
  const UseModeListeners: seq<Listener> := [
    PluginManager,
    WordPredictionController,
    VirtualKeyboardController,
    VirtualMouseController,
    WritingStateController,
    CustomCharPredictionController,
    AutoCharPredictionController,
    UserActionController,
    UseVariableController,
    KeyListController,
    UserActionSequenceController,
    UseModeProgressDisplayerController,
    SoundPlayer,
    VoiceSynthesizerController,
    NoteKeyController,
    ImageDictionaries,
    GlobalKeyEventManager,
    WinAutoHotKeyKeyboardReceiverController,
    SelectionModeController
  ]

  datatype Phase = Start | Stop

  /** The calls the controller makes into collaborators that are not modelled. */
  datatype Event =
    | Notify(listener: Listener, phase: Phase, configuration: Configuration)  // modeStart / modeStop
    | UseSceneInitialised(configuration: Configuration)
    | LoadUseInformation(configuration: Configuration)
    | SaveUseInformation(configuration: Configuration)
    | StatsModeStarted(mode: AppMode, configuration: Configuration)
    | StatsModeStopped(mode: AppMode)
    | EditStageShown
    | EditStageHidden
    | UseStageShown(stage: UseStage)
    | OpenConfiguration(description: Option<Description>)

  /** How the background task that starts use mode ends. */
  datatype TaskOutcome =
    | Succeeded
      /**
       * The task threw after completing its first `steps` steps. Only its last step
       * can throw once all the others have run, so at most all steps but one complete.
       */
    | FailedAfter(steps: nat)

  /** Everything the controller owns, plus the log of its calls to collaborators. */
  datatype State = State(
    mode: Option<AppMode>,
    useContext: UseModeContext,
    editContext: EditModeContext,
    log: seq<Event>)

  // ---------------------------------------------------------------------------
  // Specification of the mode machine
  // ---------------------------------------------------------------------------

  /** The events of one `forEach` over a listener list. */
  function ListenerCalls(ls: seq<Listener>, phase: Phase, c: Configuration): seq<Event>
  {
    seq(|ls|, i requires 0 <= i < |ls| => Notify(ls[i], phase, c))
  }

  /** `stopModeIfNeeded(modeToStop)`. */
  function Stopped(s: State, modeToStop: Option<AppMode>): State
  {
    if modeToStop == Some(Use) then
      var stops :=
        match s.useContext.configuration
        case Some(c) => ListenerCalls(UseModeListeners, Stop, c) + [SaveUseInformation(c)]
        case None => [];
      s.(useContext := s.useContext.CleanedAfterStop(),
         log := s.log + stops + [StatsModeStopped(Use)])
    else if modeToStop == Some(Edit) then
      s.(editContext := s.editContext.CleanedAfterStop(),
         log := s.log + [StatsModeStopped(Edit)])
    else
      s
  }

  /** `mode.set(m)`: the change listener runs only when the value really changes. */
  function WithMode(s: State, m: Option<AppMode>): State
  {
    if s.mode == m then s else Stopped(s.(mode := m), s.mode)
  }

  /** `clearCurrentMode()`. */
  function ModeCleared(s: State): State
  {
    WithMode(s, None)
  }

  /** `startEditMode()`. */
  function EditModeStarted(s: State, profile: Option<Profile>): State
  {
    var usedConfiguration := s.useContext.configuration;
    var s1 := WithMode(s, Some(Edit));
    var s2 := s1.(log := s1.log + [EditStageShown]);
    var previous := s2.editContext.previousConfiguration;
    var s3 :=
      if previous.Some? then
        s2.(editContext := s2.editContext.SwitchTo(previous, s2.editContext.previousDescription))
      else if usedConfiguration.Some? && profile.Some? then
        s2.(log := s2.log + [OpenConfiguration(profile.value.GetConfigurationById(usedConfiguration.value.id))])
      else
        s2;
    s3.(editContext := s3.editContext.ClearedPreviouslyEdited())
  }

  /** The steps of the background task, in order. */
  function UseTaskSteps(c: Configuration): seq<Event>
  {
    [UseSceneInitialised(c), LoadUseInformation(c)]
    + ListenerCalls(UseModeListeners, Start, c)
    + [StatsModeStarted(Use, c)]
  }

  /** How many task steps complete for a given outcome. */
  function CompletedSteps(c: Configuration, outcome: TaskOutcome): nat
  {
    match outcome
    case Succeeded => |UseTaskSteps(c)|
    case FailedAfter(k) => if k < |UseTaskSteps(c)| then k else |UseTaskSteps(c)| - 1
  }

  /** The events the background task produces before it ends. */
  function TaskTrace(c: Configuration, outcome: TaskOutcome): seq<Event>
  {
    UseTaskSteps(c)[..CompletedSteps(c, outcome)]
  }

  /** `launchUseMode()` for the configuration and description held by the use context. */
  function UseModeLaunched(s: State, c: Configuration, d: Option<Description>,
                           profile: Option<Profile>, outcome: TaskOutcome): State
  {
    var s1 := s.(log := s.log + TaskTrace(c, outcome));
    if outcome.Succeeded? then
      var stage := UseStage(profile, c, d);
      s1.(useContext := s1.useContext.(stage := Some(stage)),
          log := s1.log + [UseStageShown(stage), EditStageHidden])
    else
      EditModeStarted(s1, profile)
  }

  /** `startUseModeForConfiguration(c, d)`. */
  function UseModeStarted(s: State, c: Configuration, d: Option<Description>,
                          profile: Option<Profile>, outcome: TaskOutcome): State
  {
    var s1 := s.(useContext := s.useContext.SwitchTo(Some(c), d));
    UseModeLaunched(WithMode(s1, Some(Use)), c, d, profile, outcome)
  }

  /** `switchUseModeConfiguration(c, d)`. */
  function UseConfigurationSwitched(s: State, c: Configuration, d: Option<Description>,
                                    profile: Option<Profile>, outcome: TaskOutcome): State
  {
    UseModeStarted(ModeCleared(s), c, d, profile, outcome)
  }

  // ---------------------------------------------------------------------------
  // The controller
  // ---------------------------------------------------------------------------

  class AppModeController {
    var mode: Option<AppMode>
    var useContext: UseModeContext
    var editContext: EditModeContext
    var log: seq<Event>

    function Snapshot(): State
      reads this
    {
      State(mode, useContext, editContext, log)
    }

    constructor ()
      ensures mode == None && log == []
      ensures useContext == UseModeContext(None, None, None)
      ensures editContext == EditModeContext(None, None, None, None)
    {
      mode := None;
      useContext := UseModeContext(None, None, None);
      editContext := EditModeContext(None, None, None, None);
      log := [];
    }

    function IsUseMode(): (b: bool)
      reads this
      ensures b ==> mode.Some? && mode.value != Edit
      ensures mode.None? ==> !b
      ensures mode == Some(Use) ==> b
    {
      mode == Some(Use)
    }

    function IsEditMode(): (b: bool)
      reads this
      ensures b ==> mode.Some? && mode.value != Use
      ensures mode.None? ==> !b
      ensures mode == Some(Edit) ==> b
    {
      mode == Some(Edit)
    }

    /** `USE_MODE_LISTENERS.forEach(l -> l.modeStart(c))` or `... l.modeStop(c)`. */
    method NotifyUseModeListeners(phase: Phase, c: Configuration)
      modifies this
      ensures log == old(log) + ListenerCalls(UseModeListeners, phase, c)
      ensures mode == old(mode) && useContext == old(useContext) && editContext == old(editContext)
    {
      for i := 0 to |UseModeListeners|
        invariant log == old(log) + ListenerCalls(UseModeListeners[..i], phase, c)
        invariant mode == old(mode) && useContext == old(useContext) && editContext == old(editContext)
      {
        ListenerCallsSnoc(UseModeListeners, i, phase, c);
        log := log + [Notify(UseModeListeners[i], phase, c)];
      }
      assert UseModeListeners[..|UseModeListeners|] == UseModeListeners;
    }

    method StopModeIfNeeded(modeToStop: Option<AppMode>)
      modifies this
      ensures Snapshot() == Stopped(old(Snapshot()), modeToStop)
    {
      if modeToStop == Some(Use) {
        var configuration := useContext.configuration;
        if configuration.Some? {
          NotifyUseModeListeners(Stop, configuration.value);
          log := log + [SaveUseInformation(configuration.value)];
        }
        log := log + [StatsModeStopped(Use)];
        useContext := useContext.CleanedAfterStop();
      }
      if modeToStop == Some(Edit) {
        log := log + [StatsModeStopped(Edit)];
        editContext := editContext.CleanedAfterStop();
      }
    }

    /** `mode.set(m)` together with the change listener registered in the constructor. */
    method SetMode(m: Option<AppMode>)
      modifies this
      ensures Snapshot() == WithMode(old(Snapshot()), m)
    {
      var previous := mode;
      if previous != m {
        mode := m;
        StopModeIfNeeded(previous);
      }
    }

    method ClearCurrentMode()
      modifies this
      ensures Snapshot() == ModeCleared(old(Snapshot()))
      ensures !IsUseMode() && !IsEditMode()
    {
      SetMode(None);
    }

    method StartEditMode(profile: Option<Profile>)
      modifies this
      ensures Snapshot() == EditModeStarted(old(Snapshot()), profile)
    {
      var usedConfiguration := useContext.configuration;
      SetMode(Some(Edit));
      log := log + [EditStageShown];
      var previous := editContext.previousConfiguration;
      if previous.Some? {
        editContext := editContext.SwitchTo(previous, editContext.previousDescription);
      } else if usedConfiguration.Some? && profile.Some? {
        var description := profile.value.GetConfigurationById(usedConfiguration.value.id);
        log := log + [OpenConfiguration(description)];
      }
      editContext := editContext.ClearedPreviouslyEdited();
    }

    /** The body of the background task: its steps in order, until one of them throws. */
    method RunUseModeTask(c: Configuration, outcome: TaskOutcome) returns (succeeded: bool)
      modifies this
      ensures succeeded <==> outcome.Succeeded?
      ensures log == old(log) + TaskTrace(c, outcome)
      ensures mode == old(mode) && useContext == old(useContext) && editContext == old(editContext)
    {
      var steps := UseTaskSteps(c);
      var n := CompletedSteps(c, outcome);
      for i := 0 to n
        invariant log == old(log) + steps[..i]
        invariant mode == old(mode) && useContext == old(useContext) && editContext == old(editContext)
      {
        assert steps[..i + 1] == steps[..i] + [steps[i]];
        log := log + [steps[i]];
      }
      succeeded := outcome.Succeeded?;
    }

    method LaunchUseMode(profile: Option<Profile>, outcome: TaskOutcome)
      requires useContext.configuration.Some?
      modifies this
      ensures Snapshot() == UseModeLaunched(old(Snapshot()), old(useContext.configuration.value),
                                            old(useContext.description), profile, outcome)
    {
      var configuration := useContext.configuration.value;
      var description := useContext.description;
      var succeeded := RunUseModeTask(configuration, outcome);
      if succeeded {
        var stage := UseStage(profile, configuration, description);
        useContext := useContext.(stage := Some(stage));
        log := log + [UseStageShown(stage), EditStageHidden];
      } else {
        StartEditMode(profile);
      }
    }

    method StartUseModeForConfiguration(c: Configuration, d: Option<Description>,
                                        profile: Option<Profile>, outcome: TaskOutcome)
      modifies this
      ensures Snapshot() == UseModeStarted(old(Snapshot()), c, d, profile, outcome)
    {
      useContext := useContext.SwitchTo(Some(c), d);
      SetMode(Some(Use));
      LaunchUseMode(profile, outcome);
    }

    method SwitchUseModeConfiguration(c: Configuration, d: Option<Description>,
                                      profile: Option<Profile>, outcome: TaskOutcome)
      modifies this
      ensures Snapshot() == UseConfigurationSwitched(old(Snapshot()), c, d, profile, outcome)
    {
      ClearCurrentMode();
      StartUseModeForConfiguration(c, d, profile, outcome);
    }
  }

  // ---------------------------------------------------------------------------
  // Properties
  // ---------------------------------------------------------------------------

  lemma ListenerCallsSnoc(ls: seq<Listener>, i: nat, phase: Phase, c: Configuration)
    requires i < |ls|
    ensures ListenerCalls(ls[..i + 1], phase, c) == ListenerCalls(ls[..i], phase, c) + [Notify(ls[i], phase, c)]
  {
  }

  ghost predicate Distinct(ls: seq<Listener>)
  {
    forall i, j :: 0 <= i < j < |ls| ==> ls[i] != ls[j]
  }

  /** Where each listener kind sits in `USE_MODE_LISTENERS`. */
  function ListPosition(l: Listener): nat
  {
    match l
    case PluginManager => 0
    case WordPredictionController => 1
    case VirtualKeyboardController => 2
    case VirtualMouseController => 3
    case WritingStateController => 4
    case CustomCharPredictionController => 5
    case AutoCharPredictionController => 6
    case UserActionController => 7
    case UseVariableController => 8
    case KeyListController => 9
    case UserActionSequenceController => 10
    case UseModeProgressDisplayerController => 11
    case SoundPlayer => 12
    case VoiceSynthesizerController => 13
    case NoteKeyController => 14
    case ImageDictionaries => 15
    case GlobalKeyEventManager => 16
    case WinAutoHotKeyKeyboardReceiverController => 17
    case SelectionModeController => 18
  }

  lemma ListPositionsMatch()
    ensures forall i :: 0 <= i < |UseModeListeners| ==> ListPosition(UseModeListeners[i]) == i
  {
  }

  /** The listener list has nineteen distinct members and ends with the selection controller. */
  lemma UseModeListenersShape()
    ensures |UseModeListeners| == 19 && Distinct(UseModeListeners)
    ensures UseModeListeners[18] == SelectionModeController
  {
    ListPositionsMatch();
    forall i, j | 0 <= i < j < |UseModeListeners|
      ensures UseModeListeners[i] != UseModeListeners[j]
    {
      assert ListPosition(UseModeListeners[i]) == i && ListPosition(UseModeListeners[j]) == j;
    }
  }

  /** Every listener kind is on the list. */
  lemma ListenerIsOnList(l: Listener)
    ensures l in UseModeListeners
  {
    assert UseModeListeners[ListPosition(l)] == l;
  }

  /** One walk over distinct listeners calls each of them exactly once. */
  lemma {:induction false} ListenerCalledOnce(ls: seq<Listener>, phase: Phase, c: Configuration, l: Listener)
    requires Distinct(ls)
    ensures multiset(ListenerCalls(ls, phase, c))[Notify(l, phase, c)] == if l in ls then 1 else 0
  {
    if ls != [] {
      assert ListenerCalls(ls, phase, c) == [Notify(ls[0], phase, c)] + ListenerCalls(ls[1..], phase, c);
      ListenerCalledOnce(ls[1..], phase, c, l);
      assert l in ls <==> l == ls[0] || l in ls[1..] by {
        assert ls == [ls[0]] + ls[1..];
      }
    }
  }

  /** A notification in a walk over the listener list is always of the walk's own phase. */
  lemma ListenerCallsPhase(ls: seq<Listener>, phase: Phase, c: Configuration, e: Event)
    requires e in ListenerCalls(ls, phase, c)
    ensures e.Notify? && e.phase == phase && e.configuration == c && e.listener in ls
  {
  }

  /** Setting the mode to its current value notifies no one and changes nothing. */
  lemma SettingSameModeStopsNothing(s: State)
    ensures WithMode(s, s.mode) == s
  {
  }

  /**
   * The two mode queries of a controller are never both true, exactly one holds
   * once a mode is set, and clearing the mode leaves it null.
   */
  lemma ModeQueriesExclusive(ctl: AppModeController)
    ensures !(ctl.IsUseMode() && ctl.IsEditMode())
    ensures ctl.mode.Some? ==> ctl.IsUseMode() || ctl.IsEditMode()
    ensures ModeCleared(ctl.Snapshot()).mode == None
  {
    match ctl.mode
    case None =>
    case Some(m) =>
      if m == Use {
        assert ctl.IsUseMode();
      } else {
        assert ctl.IsEditMode();
      }
  }

  /**
   * Leaving use mode with a configuration stops every listener exactly once,
   * in list order, then saves the use information, records the stop and
   * cleans the use context.
   */
  lemma LeavingUseStopsEachListenerOnce(s: State, m: Option<AppMode>, c: Configuration)
    requires s.mode == Some(Use) && m != Some(Use)
    requires s.useContext.configuration == Some(c)
    ensures WithMode(s, m).log
            == s.log + ListenerCalls(UseModeListeners, Stop, c) + [SaveUseInformation(c), StatsModeStopped(Use)]
    ensures forall l: Listener :: multiset(WithMode(s, m).log[|s.log|..])[Notify(l, Stop, c)] == 1
    ensures WithMode(s, m).useContext == UseModeContext(None, None, None)
    ensures WithMode(s, m).editContext == s.editContext && WithMode(s, m).mode == m
  {
    var t := WithMode(s, m).log;
    assert t[|s.log|..] == ListenerCalls(UseModeListeners, Stop, c) + [SaveUseInformation(c), StatsModeStopped(Use)];
    forall l: Listener
      ensures multiset(t[|s.log|..])[Notify(l, Stop, c)] == 1
    {
      UseModeListenersShape();
      ListenerIsOnList(l);
      ListenerCalledOnce(UseModeListeners, Stop, c, l);
    }
  }

  /** Leaving use mode without a configuration calls no listener and saves nothing. */
  lemma LeavingUseWithoutConfiguration(s: State, m: Option<AppMode>)
    requires s.mode == Some(Use) && m != Some(Use)
    requires s.useContext.configuration == None
    ensures WithMode(s, m).log == s.log + [StatsModeStopped(Use)]
    ensures WithMode(s, m).useContext == UseModeContext(None, None, None)
  {
  }

  /** Leaving edit mode only records the stop and cleans the edit context. */
  lemma LeavingEditTouchesNoListener(s: State, m: Option<AppMode>)
    requires s.mode == Some(Edit) && m != Some(Edit)
    ensures WithMode(s, m).log == s.log + [StatsModeStopped(Edit)]
    ensures WithMode(s, m).useContext == s.useContext
    ensures WithMode(s, m).editContext.configuration == None
    ensures WithMode(s, m).editContext.previousConfiguration == s.editContext.configuration
  {
  }

  /** Entering use mode from any mode but use never changes the use context it was given. */
  lemma EnteringUseKeepsUseContext(s: State)
    requires s.mode != Some(Use)
    ensures WithMode(s, Some(Use)).useContext == s.useContext
    ensures WithMode(s, Some(Use)).mode == Some(Use)
  {
  }

  /** The part of the log a successful start produces after the outgoing mode has stopped. */
  function StartedUseLog(c: Configuration, d: Option<Description>, profile: Option<Profile>): seq<Event>
  {
    UseTaskSteps(c) + [UseStageShown(UseStage(profile, c, d)), EditStageHidden]
  }

  /**
   * A successful start from edit mode: edit stops first, then the task starts every
   * listener in list order, with the selection controller the last one started.
   */
  lemma StartingUseFromEditStartsListenersInOrder(s: State, c: Configuration, d: Option<Description>,
                                                  profile: Option<Profile>)
    requires s.mode == Some(Edit)
    ensures UseModeStarted(s, c, d, profile, Succeeded).log
            == s.log + [StatsModeStopped(Edit)] + StartedUseLog(c, d, profile)
    ensures var t := StartedUseLog(c, d, profile);
            t[2..21] == ListenerCalls(UseModeListeners, Start, c)
            && t[20] == Notify(SelectionModeController, Start, c)
            && forall k :: 21 <= k < |t| ==> !t[k].Notify?
    ensures UseModeStarted(s, c, d, profile, Succeeded).mode == Some(Use)
    ensures UseModeStarted(s, c, d, profile, Succeeded).useContext.stage == Some(UseStage(profile, c, d))
  {
    UseModeListenersShape();
    var t := StartedUseLog(c, d, profile);
    assert t[2..21] == ListenerCalls(UseModeListeners, Start, c);
  }

  /**
   * Calling `startUseModeForConfiguration` while already in use mode does not stop
   * the old configuration: the property does not change, so its listener does not run.
   */
  lemma RestartingUseInPlaceStopsNothing(s: State, c: Configuration, d: Option<Description>,
                                         profile: Option<Profile>)
    requires s.mode == Some(Use)
    ensures UseModeStarted(s, c, d, profile, Succeeded).log == s.log + StartedUseLog(c, d, profile)
    ensures forall e :: e in StartedUseLog(c, d, profile) ==> !(e.Notify? && e.phase == Stop)
  {
    forall e | e in StartedUseLog(c, d, profile)
      ensures !(e.Notify? && e.phase == Stop)
    {
      if e in ListenerCalls(UseModeListeners, Start, c) {
        ListenerCallsPhase(UseModeListeners, Start, c, e);
      }
    }
  }

  /**
   * Switching the use configuration clears the mode first: every listener is stopped
   * for the old configuration and the use information saved before anything for the
   * new configuration starts.
   */
  lemma SwitchingStopsOldBeforeStartingNew(s: State, old_c: Configuration, c: Configuration,
                                           d: Option<Description>, profile: Option<Profile>)
    requires s.mode == Some(Use) && s.useContext.configuration == Some(old_c)
    ensures var r := UseConfigurationSwitched(s, c, d, profile, Succeeded);
            r.log == s.log
                     + ListenerCalls(UseModeListeners, Stop, old_c)
                     + [SaveUseInformation(old_c), StatsModeStopped(Use)]
                     + StartedUseLog(c, d, profile)
    ensures var r := UseConfigurationSwitched(s, c, d, profile, Succeeded);
            forall i, j :: (|s.log| <= i < |r.log| && |s.log| <= j < |r.log|
                            && r.log[i].Notify? && r.log[i].phase == Stop
                            && r.log[j].Notify? && r.log[j].phase == Start) ==> i < j
  {
    LeavingUseStopsEachListenerOnce(s, None, old_c);
    var r := UseConfigurationSwitched(s, c, d, profile, Succeeded);
    var stops := ListenerCalls(UseModeListeners, Stop, old_c) + [SaveUseInformation(old_c), StatsModeStopped(Use)];
    var starts := StartedUseLog(c, d, profile);
    assert r.log == s.log + stops + starts;
    StopLogPhases(old_c);
    StartedUseLogPhases(c, d, profile);
    assert forall k :: |s.log| <= k < |s.log| + |stops| ==> r.log[k] == stops[k - |s.log|];
    assert forall k :: |s.log| + |stops| <= k < |r.log| ==> r.log[k] == starts[k - |s.log| - |stops|];
  }

  /** The notifications logged when use mode stops are all stops. */
  lemma StopLogPhases(c: Configuration)
    ensures var stops := ListenerCalls(UseModeListeners, Stop, c) + [SaveUseInformation(c), StatsModeStopped(Use)];
            forall k :: 0 <= k < |stops| && stops[k].Notify? ==> stops[k].phase == Stop
  {
  }

  /** The notifications logged by a successful start are all starts. */
  lemma StartedUseLogPhases(c: Configuration, d: Option<Description>, profile: Option<Profile>)
    ensures var starts := StartedUseLog(c, d, profile);
            forall k :: 0 <= k < |starts| && starts[k].Notify? ==> starts[k].phase == Start
  {
    var starts := StartedUseLog(c, d, profile);
    assert starts[2..2 + |UseModeListeners|] == ListenerCalls(UseModeListeners, Start, c);
  }

  /**
   * Whatever becomes of the new start, switching the use configuration first logs
   * every stop and the save for the old configuration: they form a prefix of the
   * new log, so nothing for the new configuration precedes them.
   */
  lemma SwitchStopsOldFirstWhateverTheOutcome(s: State, old_c: Configuration, c: Configuration,
                                              d: Option<Description>, profile: Option<Profile>,
                                              outcome: TaskOutcome)
    requires s.mode == Some(Use) && s.useContext.configuration == Some(old_c)
    ensures var stopped := s.log + ListenerCalls(UseModeListeners, Stop, old_c)
                           + [SaveUseInformation(old_c), StatsModeStopped(Use)];
            var r := UseConfigurationSwitched(s, c, d, profile, outcome);
            |stopped| <= |r.log| && r.log[..|stopped|] == stopped
  {
    LeavingUseStopsEachListenerOnce(s, None, old_c);
  }

  /** What a mode change may append to the log: stop notifications, a save and a stop record. */
  ghost predicate IsStopEvent(e: Event)
  {
    (e.Notify? && e.phase == Stop) || e.SaveUseInformation? || e.StatsModeStopped?
  }

  /** A mode change only appends stop events to the log. */
  lemma ModeChangeAppendsStopEvents(s: State, m: Option<AppMode>)
    ensures |s.log| <= |WithMode(s, m).log| && WithMode(s, m).log[..|s.log|] == s.log
    ensures forall e :: e in WithMode(s, m).log[|s.log|..] ==> IsStopEvent(e)
  {
    var t := WithMode(s, m).log;
    if s.mode != m && s.mode == Some(Use) && s.useContext.configuration.Some? {
      var c := s.useContext.configuration.value;
      assert t[|s.log|..] == ListenerCalls(UseModeListeners, Stop, c) + [SaveUseInformation(c), StatsModeStopped(Use)];
      forall e | e in t[|s.log|..] ensures IsStopEvent(e) {
        if e in ListenerCalls(UseModeListeners, Stop, c) {
          ListenerCallsPhase(UseModeListeners, Stop, c, e);
        }
      }
    }
  }

  /** The state `startEditMode` leaves, spelled out from the state after the mode change. */
  lemma EditModeStartedResult(s: State, profile: Option<Profile>)
    ensures var s1 := WithMode(s, Some(Edit));
            var prev := s1.editContext.previousConfiguration;
            var used := s.useContext.configuration;
            var r := EditModeStarted(s, profile);
            && r.mode == Some(Edit)
            && r.useContext == s1.useContext
            && r.editContext.previousConfiguration == None
            && (prev.Some? ==> r.editContext.configuration == prev)
            && r.log == s1.log + [EditStageShown]
                        + (if prev.None? && used.Some? && profile.Some?
                           then [OpenConfiguration(profile.value.GetConfigurationById(used.value.id))]
                           else [])
  {
  }

  /**
   * `startEditMode` restores a previously edited configuration when there is one;
   * otherwise it opens the configuration used in use mode when both it and a profile
   * exist; in every case it clears the previously edited configuration.
   */
  lemma StartEditModeChoosesConfiguration(s: State, profile: Option<Profile>)
    ensures var r := EditModeStarted(s, profile);
            var prev := WithMode(s, Some(Edit)).editContext.previousConfiguration;
            && r.mode == Some(Edit)
            && r.editContext.previousConfiguration == None
            && (prev.Some? ==> r.editContext.configuration == prev)
            && |s.log| <= |r.log|
            && ((prev.Some? || s.useContext.configuration.None? || profile.None?) ==>
                  forall e :: e in r.log[|s.log|..] ==> !e.OpenConfiguration?)
            && ((prev.None? && s.useContext.configuration.Some? && profile.Some?) ==>
                  r.log[|r.log| - 1]
                  == OpenConfiguration(profile.value.GetConfigurationById(s.useContext.configuration.value.id)))
  {
    var s1 := WithMode(s, Some(Edit));
    ModeChangeAppendsStopEvents(s, Some(Edit));
    EditModeStartedResult(s, profile);
    var r := EditModeStarted(s, profile);
    var prev := s1.editContext.previousConfiguration;
    if prev.Some? || s.useContext.configuration.None? || profile.None? {
      assert r.log == s1.log + [EditStageShown];
      assert r.log[|s.log|..] == s1.log[|s.log|..] + [EditStageShown];
      forall e | e in r.log[|s.log|..] ensures !e.OpenConfiguration? {
        if e in s1.log[|s.log|..] {
          assert IsStopEvent(e);
        }
      }
    }
  }

  /** A failed start is `startEditMode` run from use mode, once the task's steps are logged. */
  lemma FailedStartIsEditStart(s: State, c: Configuration, d: Option<Description>,
                               profile: Option<Profile>, k: nat)
    requires s.mode == Some(Edit)
    ensures var before := s.log + [StatsModeStopped(Edit)] + TaskTrace(c, FailedAfter(k));
            var s2 := State(Some(Use), s.useContext.SwitchTo(Some(c), d), s.editContext.CleanedAfterStop(), before);
            UseModeStarted(s, c, d, profile, FailedAfter(k)) == EditModeStarted(s2, profile)
  {
  }

  /**
   * A failed use-mode start falls back to edit mode once: the mode ends as EDIT and,
   * after the steps the task completed, nothing starts again. All listeners are
   * stopped for the configuration, whether or not the task had started them.
   */
  lemma FailedStartFallsBackToEditOnce(s: State, c: Configuration, d: Option<Description>,
                                       profile: Option<Profile>, k: nat)
    requires s.mode == Some(Edit)
    ensures var r := UseModeStarted(s, c, d, profile, FailedAfter(k));
            var before := s.log + [StatsModeStopped(Edit)] + TaskTrace(c, FailedAfter(k));
            && r.mode == Some(Edit)
            && r.useContext == UseModeContext(None, None, None)
            && |before| <= |r.log| && r.log[..|before|] == before
            && r.log[|before|..|before| + |UseModeListeners|] == ListenerCalls(UseModeListeners, Stop, c)
            && (forall e :: e in r.log[|before|..] ==> !(e.Notify? && e.phase == Start) && !e.UseSceneInitialised?)
  {
    var before := s.log + [StatsModeStopped(Edit)] + TaskTrace(c, FailedAfter(k));
    var s2 := State(Some(Use), s.useContext.SwitchTo(Some(c), d), s.editContext.CleanedAfterStop(), before);
    FailedStartIsEditStart(s, c, d, profile, k);
    LeavingUseStopsEachListenerOnce(s2, Some(Edit), c);
    EditModeStartedResult(s2, profile);
    var r := UseModeStarted(s, c, d, profile, FailedAfter(k));
    var stops := ListenerCalls(UseModeListeners, Stop, c);
    var openEvents := if WithMode(s2, Some(Edit)).editContext.previousConfiguration.None? && profile.Some?
                      then [OpenConfiguration(profile.value.GetConfigurationById(c.id))]
                      else [];
    var tail := stops + [SaveUseInformation(c), StatsModeStopped(Use), EditStageShown] + openEvents;
    assert r.log == before + tail;
    assert r.log[|before|..] == tail;
    assert tail[..|stops|] == stops;
    forall e | e in tail ensures !(e.Notify? && e.phase == Start) && !e.UseSceneInitialised? {
      if e in stops {
        ListenerCallsPhase(UseModeListeners, Stop, c, e);
      }
    }
  }
}
