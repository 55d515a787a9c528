/**
 * The main menu's experiment-setup workflow as a transition system on values:
 * the menu's section together with the calibration manager's state. It gives
 * which buttons one GUI event can press (`Visible`), what a press does
 * (`Press`), what every other event does (`Step`), and what holds in every
 * state a run from start-up reaches.
 */
module MenuWorkflow {
  import opened CalibrationRecord
  import CM = CalibrationManagement

  datatype Section =
    | ChoosVRState
    | ChooseSteeringInput
    | MainMenu
    | NonVRMenu
    | IDGeneration
    | EyeCalibration
    | EyeValidation
    | SeatCalibration
    | TrainingBlock
    | MainExperiment

  /** The menu's buttons, one per label; equal labels share one handler. */
  datatype Button =
    | Quit
    | VRMode
    | NonVRMode
    | SteeringWheel
    | XboxOneController
    | Keyboard
    | GenerateParticipantId
    | StartEyeCalibration
    | SkipEyeCalibration
    | StartEyeValidation
    | SkipEyeValidation
    | StartSeatCalibration
    | SkipSeatCalibration
    | StartTrainingBlock
    | SkipTrainingBlock

  /** The step of the workflow a button belongs to. */
  datatype Group =
    | Application
    | ModeChoice
    | SteeringChoice
    | Identity
    | EyeCalibrationStep
    | EyeValidationStep
    | SeatCalibrationStep
    | TrainingStep

  function GroupOf(b: Button): Group {
    match b
    case Quit => Application
    case VRMode | NonVRMode => ModeChoice
    case SteeringWheel | XboxOneController | Keyboard => SteeringChoice
    case GenerateParticipantId => Identity
    case StartEyeCalibration | SkipEyeCalibration => EyeCalibrationStep
    case StartEyeValidation | SkipEyeValidation => EyeValidationStep
    case StartSeatCalibration | SkipSeatCalibration => SeatCalibrationStep
    case StartTrainingBlock | SkipTrainingBlock => TrainingStep
  }

  /** The device name each steering button stores. */
  function DeviceName(b: Button): string
    requires GroupOf(b) == SteeringChoice
  {
    match b
    case SteeringWheel => "SteeringWheel"
    case XboxOneController => "XboxOneController"
    case Keyboard => "Keyboard"
  }

  predicate IsDeviceName(d: string) {
    d == "SteeringWheel" || d == "XboxOneController" || d == "Keyboard"
  }

  /**
   * The whole setup: the menu's section, the requests the menu itself makes
   * (quitting, loading the experiment scenes) and the manager.
   */
  datatype Setup = Setup(section: Section, requests: seq<CM.Request>, manager: CM.ManagerState)

  /** Start-up: the menu's section has its default value, the manager is fresh. */
  function Init(storedFile: Option<CalibrationData>): (r: Setup)
    ensures Visible(r) == {Quit, VRMode, NonVRMode}
  {
    Setup(ChoosVRState, [], CM.Initial(storedFile))
  }

  /** The condition of the VR calibration menu. */
  predicate VRMenuShown(m: CM.ManagerState) {
    m.calibrationData.VRmode && m.steeringInputGiven && m.wasMainMenuLoaded
  }

  /** The condition of the non-VR menu, tested only when the VR menu is not shown. */
  predicate NonVRMenuShown(m: CM.ManagerState) {
    !m.calibrationData.VRmode && m.wasMainMenuLoaded
  }

  /** The VR menu's chain: the first branch whose condition holds offers its buttons. */
  function VRMenuButtons(s: Setup): (r: set<Button>)
    ensures GenerateParticipantId in r <==> !s.manager.uuidGenerated
    ensures forall b | b in r :: GroupOf(b) !in {Application, ModeChoice, SteeringChoice}
  {
    var m := s.manager;
    if !m.uuidGenerated then
      {GenerateParticipantId}
    else if m.uuidGenerated && !m.eyeTrackerCalibrationSuccessful && s.section == IDGeneration then
      {StartEyeCalibration, SkipEyeCalibration}
    else if (m.eyeTrackerCalibrationSuccessful && !m.eyeTrackerValidationSuccessful) || s.section == EyeValidation then
      {StartEyeValidation, SkipEyeValidation}
    else
      LaterSteps(s)
  }

  /** The seat and training branches that end the VR menu's chain. */
  function LaterSteps(s: Setup): (r: set<Button>)
    ensures r <= {StartSeatCalibration, SkipSeatCalibration, StartTrainingBlock, SkipTrainingBlock}
    ensures s.section == SeatCalibration ==> r == {StartSeatCalibration, SkipSeatCalibration}
  {
    var m := s.manager;
    if (m.eyeTrackerValidationSuccessful && !m.seatCalibrationSuccessful) || s.section == SeatCalibration then
      {StartSeatCalibration, SkipSeatCalibration}
    else if (m.seatCalibrationSuccessful && !m.testDriveSuccessful) || s.section == TrainingBlock then
      {StartTrainingBlock, SkipTrainingBlock}
    else
      {}
  }

  /** The non-VR menu: two independent tests. */
  function NonVRMenuButtons(s: Setup): (r: set<Button>)
    ensures r <= {GenerateParticipantId, StartTrainingBlock, SkipTrainingBlock}
    ensures GenerateParticipantId in r ==> StartTrainingBlock !in r && SkipTrainingBlock !in r
    ensures StartTrainingBlock in r <==> s.manager.uuidGenerated && !s.manager.testDriveSuccessful
    ensures SkipTrainingBlock in r <==> StartTrainingBlock in r
  {
    var m := s.manager;
    (if !m.uuidGenerated && s.section == NonVRMenu then {GenerateParticipantId} else {}) +
    (if m.uuidGenerated && !m.testDriveSuccessful then {StartTrainingBlock, SkipTrainingBlock} else {})
  }

  /**
   * The buttons one GUI event can press. Only one button fires per event, so
   * every button is tested against the state before the event.
   */
  function Visible(s: Setup): (r: set<Button>)
    ensures Quit in r
    ensures VRMode in r <==> s.section == ChoosVRState
    ensures NonVRMode in r <==> s.section == ChoosVRState
    ensures SteeringWheel in r <==> s.section == ChooseSteeringInput
    ensures XboxOneController in r <==> s.section == ChooseSteeringInput
    ensures Keyboard in r <==> s.section == ChooseSteeringInput
  {
    {Quit} +
    (if s.section == ChoosVRState then {VRMode, NonVRMode} else {}) +
    (if s.section == ChooseSteeringInput then {SteeringWheel, XboxOneController, Keyboard} else {}) +
    (if VRMenuShown(s.manager) then VRMenuButtons(s)
     else if NonVRMenuShown(s.manager) then NonVRMenuButtons(s)
     else {})
  }

  /** The handler of a steering button: store the device, then leave for a menu. */
  function ChooseDevice(s: Setup, device: string): (r: Setup)
    ensures r.manager.steeringInputGiven && r.manager.calibrationData.SteeringInputDevice == Some(device)
    ensures r.manager.file == s.manager.file
    ensures r.section == if s.manager.calibrationData.VRmode then MainMenu else NonVRMenu
  {
    var m' := CM.Apply(s.manager, CM.Operation.StoreSteeringInputDevice(device));
    s.(manager := m', section := if m'.calibrationData.VRmode then MainMenu else NonVRMenu)
  }

  /** The handler of each button. */
  function Press(s: Setup, b: Button, guid: string): (r: Setup)
    ensures s.requests <= r.requests && s.manager.requests <= r.manager.requests
    ensures r.section == MainExperiment ==> s.section == MainExperiment
  {
    var m := s.manager;
    match b
    case Quit =>
      s.(requests := s.requests + [CM.Request.QuitApplication])
    case VRMode =>
      s.(manager := CM.Apply(CM.Apply(m, CM.Operation.StoreVRState(true)), CM.Operation.SetCameraMode(true)),
         section := ChooseSteeringInput)
    case NonVRMode =>
      s.(manager := CM.Apply(CM.Apply(m, CM.Operation.StoreVRState(false)), CM.Operation.SetCameraMode(false)),
         section := ChooseSteeringInput)
    case SteeringWheel => ChooseDevice(s, "SteeringWheel")
    case XboxOneController => ChooseDevice(s, "XboxOneController")
    case Keyboard => ChooseDevice(s, "Keyboard")
    case GenerateParticipantId =>
      s.(section := IDGeneration, manager := CM.Apply(m, CM.Operation.GenerateID(guid)))
    case StartEyeCalibration =>
      s.(manager := CM.Apply(m, CM.Operation.EyeCalibration))
    case SkipEyeCalibration =>
      s.(section := EyeValidation)
    case StartEyeValidation =>
      s.(section := EyeValidation, manager := CM.Apply(m, CM.Operation.EyeValidation))
    case SkipEyeValidation =>
      s.(section := SeatCalibration)
    case StartSeatCalibration =>
      s.(section := SeatCalibration, manager := CM.Apply(m, CM.Operation.SeatCalibration))
    case SkipSeatCalibration =>
      s.(section := TrainingBlock)
    case StartTrainingBlock =>
      s.(section := TrainingBlock, manager := CM.Apply(m, CM.Operation.StartTestDrive))
    case SkipTrainingBlock =>
      s.(section := TrainingBlock, requests := s.requests + [CM.Request.LoadExperimentScenes])
  }

  /** The manager's entry points that other components call back. */
  datatype Callback =
    | EyeCalibrationSucceeded
    | EyeValidationSucceeded
    | SeatCalibrationSucceeded
    | SeatOffsetMeasured(offset: Vector3)
    | ValidationErrorMeasured(error: Vector3)
    | TestDriveResult(state: bool, trials: Int32)
    | TestDriveFinished
    | CalibrationSaved
    | CalibrationDeleted

  function CallbackOperation(c: Callback): CM.Operation {
    match c
    case EyeCalibrationSucceeded => CM.Operation.EyeCalibrationSuccessful
    case EyeValidationSucceeded => CM.Operation.EyeValidationSuccessful
    case SeatCalibrationSucceeded => CM.Operation.SeatCalibrationSuccessful
    case SeatOffsetMeasured(v) => CM.Operation.StoreSeatCalibrationData(v)
    case ValidationErrorMeasured(v) => CM.Operation.StoreValidationErrorData(v)
    case TestDriveResult(state, trials) => CM.Operation.TestDriveSuccessState(state, trials)
    case TestDriveFinished => CM.Operation.TestDriveEnded
    case CalibrationSaved => CM.Operation.SaveCalibrationData
    case CalibrationDeleted => CM.Operation.DeleteCalibrationData
  }

  /**
   * An event: a GUI event that hits `button` (`guid` is what the GUID source
   * would return), a scene load, a restart of the menu, an aborted
   * experiment, or a callback into the manager.
   */
  datatype Event =
    | Click(button: Button, guid: string)
    | SceneLoaded
    | RestartMainMenu
    | Abort
    | Call(callback: Callback)

  function Step(s: Setup, e: Event): (r: Setup)
    ensures s.requests <= r.requests && s.manager.requests <= r.manager.requests
  {
    match e
    case Click(b, guid) => if b in Visible(s) then Press(s, b, guid) else s
    case SceneLoaded => if s.manager.wasMainMenuLoaded then s.(section := MainMenu) else s
    case RestartMainMenu => s.(section := MainMenu)
    case Abort => s.(manager := CM.Apply(s.manager, CM.Operation.AbortExperiment), section := MainMenu)
    case Call(c) => s.(manager := CM.Apply(s.manager, CallbackOperation(c)))
  }

  /** The events in order; the request logs only ever grow. */
  function Run(s: Setup, events: seq<Event>): (r: Setup)
    decreases |events|
    ensures s.requests <= r.requests && s.manager.requests <= r.manager.requests
  {
    if events == [] then s else Run(Step(s, events[0]), events[1..])
  }

  // ---------------------------------------------------------------------
  // Single presses

  /** "VR Mode" and "Non-VR Mode": store the mode, set up the camera, choose steering next. */
  lemma ChoosingTheMode(s: Setup, b: Button, guid: string)
    requires s.section == ChoosVRState && GroupOf(b) == ModeChoice
    ensures b in Visible(s)
    ensures var s' := Step(s, Click(b, guid));
      s'.section == ChooseSteeringInput &&
      s'.manager.calibrationData == s.manager.calibrationData.(VRmode := (b == VRMode)) &&
      s'.manager.wasMainMenuLoaded &&
      s'.manager.file == Some(s'.manager.calibrationData) &&
      s'.manager.requests == s.manager.requests + [if b == VRMode then CM.VRCameraSetUp else CM.NonVRCameraSetUp]
  {
    assert b in Visible(s);
    match b {
      case VRMode =>
      case NonVRMode =>
    }
  }

  /** A steering button records its device and leaves for the menu of the stored mode. */
  lemma ChoosingTheSteeringDevice(s: Setup, b: Button, guid: string)
    requires s.section == ChooseSteeringInput && GroupOf(b) == SteeringChoice
    ensures b in Visible(s)
    ensures var s' := Step(s, Click(b, guid));
      s'.manager.calibrationData == s.manager.calibrationData.(SteeringInputDevice := Some(DeviceName(b))) &&
      s'.manager.steeringInputGiven &&
      s'.manager.file == s.manager.file &&
      s'.section == if s.manager.calibrationData.VRmode then MainMenu else NonVRMenu
  {
  }

  /**
   * "Generate Participant ID" is offered exactly when no id exists and one of
   * the two menus is up, the non-VR one only in its own section.
   */
  lemma GenerateIdOfferedIff(s: Setup)
    ensures GenerateParticipantId in Visible(s) <==>
      !s.manager.uuidGenerated && s.manager.wasMainMenuLoaded &&
      ((s.manager.calibrationData.VRmode && s.manager.steeringInputGiven) ||
       (!s.manager.calibrationData.VRmode && s.section == NonVRMenu))
  {
  }

  /** Pressing it stores the id without dashes, saves, and enters IDGeneration. */
  lemma GeneratingTheId(s: Setup, guid: string)
    requires GenerateParticipantId in Visible(s)
    ensures var s' := Step(s, Click(GenerateParticipantId, guid));
      s'.section == IDGeneration && s'.manager.uuidGenerated &&
      s'.manager.calibrationData == s.manager.calibrationData.(ParticipantUuid := Some(RemoveDashes(guid))) &&
      s'.manager.file == Some(s'.manager.calibrationData)
  {
  }

  /** The eye-calibration buttons are offered only in the IDGeneration section. */
  lemma EyeCalibrationOfferedIff(s: Setup)
    ensures StartEyeCalibration in Visible(s) <==>
      VRMenuShown(s.manager) && s.manager.uuidGenerated &&
      !s.manager.eyeTrackerCalibrationSuccessful && s.section == IDGeneration
    ensures SkipEyeCalibration in Visible(s) <==> StartEyeCalibration in Visible(s)
  {
  }

  /** The eye and seat steps belong to the VR menu alone. */
  lemma CalibrationStepsNeedVR(s: Setup, b: Button)
    requires b in Visible(s)
    requires GroupOf(b) in {EyeCalibrationStep, EyeValidationStep, SeatCalibrationStep}
    ensures VRMenuShown(s.manager) && !NonVRMenuShown(s.manager)
  {
  }

  function SkipTarget(b: Button): Section {
    match b
    case SkipEyeCalibration => EyeValidation
    case SkipEyeValidation => SeatCalibration
    case _ => TrainingBlock
  }

  predicate IsSkip(b: Button) {
    b == SkipEyeCalibration || b == SkipEyeValidation || b == SkipSeatCalibration || b == SkipTrainingBlock
  }

  /**
   * A skip button only advances the section; skipping the training also
   * requests the experiment scenes.
   */
  lemma SkippingAdvances(s: Setup, b: Button, guid: string)
    requires b in Visible(s) && IsSkip(b)
    ensures var s' := Step(s, Click(b, guid));
      s'.section == SkipTarget(b) && s'.manager == s.manager &&
      s'.requests == s.requests + (if b == SkipTrainingBlock then [CM.Request.LoadExperimentScenes] else [])
  {
  }

  /** Both training buttons enter the TrainingBlock section. */
  lemma TrainingButtonsEnterTraining(s: Setup, b: Button, guid: string)
    requires b in Visible(s) && GroupOf(b) == TrainingStep
    ensures Step(s, Click(b, guid)).section == TrainingBlock
  {
  }

  // ---------------------------------------------------------------------
  // Every event

  /** No event enters MainExperiment; the assignments that would are commented out. */
  lemma NoStepEntersMainExperiment(s: Setup, e: Event)
    ensures Step(s, e).section == MainExperiment ==> s.section == MainExperiment
  {
  }

  /** No handler clears a progress flag other than the test-drive flag. */
  lemma PressFlagsGrow(s: Setup, b: Button, guid: string)
    ensures CM.FlagsGrow(s.manager, Press(s, b, guid).manager)
  {
    match b {
      case Quit =>
      case VRMode =>
      case NonVRMode =>
      case SteeringWheel =>
      case XboxOneController =>
      case Keyboard =>
      case GenerateParticipantId =>
      case StartEyeCalibration =>
      case SkipEyeCalibration =>
      case StartEyeValidation =>
      case SkipEyeValidation =>
      case StartSeatCalibration =>
      case SkipSeatCalibration =>
      case StartTrainingBlock =>
      case SkipTrainingBlock =>
    }
  }

  /** No event clears a progress flag other than the test-drive flag. */
  lemma StepFlagsGrow(s: Setup, e: Event)
    ensures CM.FlagsGrow(s.manager, Step(s, e).manager)
  {
    match e {
      case Click(b, guid) =>
        PressFlagsGrow(s, b, guid);
      case Call(c) =>
        CM.FlagsAreMonotone(s.manager, CallbackOperation(c));
      case _ =>
    }
  }

  lemma {:induction false} RunFlagsGrow(s: Setup, events: seq<Event>)
    decreases |events|
    ensures CM.FlagsGrow(s.manager, Run(s, events).manager)
  {
    if events != [] {
      StepFlagsGrow(s, events[0]);
      RunFlagsGrow(Step(s, events[0]), events[1..]);
    }
  }

  // ---------------------------------------------------------------------
  // Reachable states

  /** What holds in every state reached from start-up. */
  predicate Consistent(s: Setup) {
    var m := s.manager;
    s.section != MainExperiment &&
    (s.section == ChoosVRState ==> !m.wasMainMenuLoaded && !m.steeringInputGiven) &&
    (s.section == ChooseSteeringInput ==> !m.steeringInputGiven) &&
    (s.section == NonVRMenu ==> m.steeringInputGiven) &&
    (m.uuidGenerated ==> m.steeringInputGiven) &&
    (m.uuidGenerated ==>
      m.calibrationData.ParticipantUuid.Some? && '-' !in m.calibrationData.ParticipantUuid.value) &&
    (m.steeringInputGiven ==>
      m.calibrationData.SteeringInputDevice.Some? && IsDeviceName(m.calibrationData.SteeringInputDevice.value))
  }

  lemma PressKeepsConsistent(s: Setup, b: Button, guid: string)
    requires Consistent(s) && b in Visible(s)
    ensures Consistent(Press(s, b, guid))
  {
    if GroupOf(b) == ModeChoice {
      assert s.section == ChoosVRState;
    }
    if b == GenerateParticipantId {
      assert s.manager.steeringInputGiven;
    }
    PressKeepsConsistentWhen(s, b, guid);
  }

  /** The two facts about an offered button that the invariant needs. */
  lemma PressKeepsConsistentWhen(s: Setup, b: Button, guid: string)
    requires Consistent(s)
    requires GroupOf(b) == ModeChoice ==> s.section == ChoosVRState
    requires b == GenerateParticipantId ==> s.manager.steeringInputGiven
    ensures Consistent(Press(s, b, guid))
  {
    match b {
      case Quit =>
      case GenerateParticipantId =>
      case VRMode | NonVRMode | SteeringWheel | XboxOneController | Keyboard =>
        ChoiceKeepsConsistent(s, b, guid);
      case _ =>
        CalibrationStepKeepsConsistent(s, b, guid);
    }
  }

  /** The mode and steering buttons fill in the mode, then the device. */
  lemma ChoiceKeepsConsistent(s: Setup, b: Button, guid: string)
    requires Consistent(s)
    requires GroupOf(b) == ModeChoice ==> s.section == ChoosVRState
    requires GroupOf(b) in {ModeChoice, SteeringChoice}
    ensures Consistent(Press(s, b, guid))
  {
    if GroupOf(b) == ModeChoice {
      ModeChoiceKeepsConsistent(s, b, guid);
    } else {
      SteeringChoiceKeepsConsistent(s, b, guid);
    }
  }

  lemma ModeChoiceKeepsConsistent(s: Setup, b: Button, guid: string)
    requires Consistent(s) && s.section == ChoosVRState && GroupOf(b) == ModeChoice
    ensures Consistent(Press(s, b, guid))
  {
    match b {
      case VRMode =>
      case NonVRMode =>
    }
  }

  lemma SteeringChoiceKeepsConsistent(s: Setup, b: Button, guid: string)
    requires Consistent(s) && GroupOf(b) == SteeringChoice
    ensures Consistent(Press(s, b, guid))
  {
    match b {
      case SteeringWheel =>
      case XboxOneController =>
      case Keyboard =>
    }
  }

  /** The calibration and training buttons change no flag and no record field. */
  lemma CalibrationStepKeepsConsistent(s: Setup, b: Button, guid: string)
    requires Consistent(s)
    requires GroupOf(b) in {EyeCalibrationStep, EyeValidationStep, SeatCalibrationStep, TrainingStep}
    ensures Consistent(Press(s, b, guid))
  {
    match b {
      case StartEyeCalibration =>
      case SkipEyeCalibration =>
      case StartEyeValidation =>
      case SkipEyeValidation =>
      case StartSeatCalibration =>
      case SkipSeatCalibration =>
      case StartTrainingBlock =>
      case SkipTrainingBlock =>
    }
  }

  lemma StepKeepsConsistent(s: Setup, e: Event)
    requires Consistent(s)
    ensures Consistent(Step(s, e))
  {
    match e {
      case Click(b, guid) =>
        if b in Visible(s) {
          PressKeepsConsistent(s, b, guid);
        }
      case Call(c) =>
        CM.RecordFieldWriters(s.manager, CallbackOperation(c));
        CM.FlagsAreMonotone(s.manager, CallbackOperation(c));
      case _ =>
    }
  }

  lemma {:induction false} RunKeepsConsistent(s: Setup, events: seq<Event>)
    requires Consistent(s)
    ensures Consistent(Run(s, events))
    decreases |events|
  {
    if events != [] {
      StepKeepsConsistent(s, events[0]);
      RunKeepsConsistent(Step(s, events[0]), events[1..]);
    }
  }

  /**
   * In a consistent state the screen offers one step at a time: apart from
   * "Quit", every offered button belongs to the same group.
   */
  lemma OneStepOnScreen(s: Setup, b1: Button, b2: Button)
    requires Consistent(s)
    requires b1 in Visible(s) && b2 in Visible(s) && b1 != Quit && b2 != Quit
    ensures GroupOf(b1) == GroupOf(b2)
  {
    var m := s.manager;
    if s.section == ChoosVRState {
      assert Visible(s) == {Quit, VRMode, NonVRMode};
    } else if s.section == ChooseSteeringInput {
      assert NonVRMenuButtons(s) == {};
      assert Visible(s) == {Quit, SteeringWheel, XboxOneController, Keyboard};
    } else if VRMenuShown(m) {
      assert Visible(s) == {Quit} + VRMenuButtons(s);
      VRMenuOneStep(s, b1, b2);
    } else if NonVRMenuShown(m) {
      assert Visible(s) == {Quit} + NonVRMenuButtons(s);
      NonVRMenuOneStep(s, b1, b2);
    }
  }

  /** Each branch of the VR menu's chain offers the buttons of one step. */
  lemma VRMenuOneStep(s: Setup, b1: Button, b2: Button)
    requires b1 in VRMenuButtons(s) && b2 in VRMenuButtons(s)
    ensures GroupOf(b1) == GroupOf(b2)
  {
  }

  /** The non-VR menu's two tests exclude each other: one needs an id, the other its absence. */
  lemma NonVRMenuOneStep(s: Setup, b1: Button, b2: Button)
    requires b1 in NonVRMenuButtons(s) && b2 in NonVRMenuButtons(s)
    ensures GroupOf(b1) == GroupOf(b2)
  {
  }

  /**
   * From start-up, whatever the calibration file held and whatever events
   * follow: the section never becomes MainExperiment, a generated id holds no
   * dash, a chosen device is one of the three names, and one step is
   * offered at a time.
   */
  lemma ReachableStates(storedFile: Option<CalibrationData>, events: seq<Event>, b1: Button, b2: Button)
    ensures var s := Run(Init(storedFile), events);
      s.section != MainExperiment &&
      (s.manager.uuidGenerated ==>
        s.manager.calibrationData.ParticipantUuid.Some? &&
        '-' !in s.manager.calibrationData.ParticipantUuid.value) &&
      (s.manager.steeringInputGiven ==>
        s.manager.calibrationData.SteeringInputDevice.Some? &&
        IsDeviceName(s.manager.calibrationData.SteeringInputDevice.value)) &&
      (b1 in Visible(s) && b2 in Visible(s) && b1 != Quit && b2 != Quit ==> GroupOf(b1) == GroupOf(b2))
  {
    RunKeepsConsistent(Init(storedFile), events);
    var s := Run(Init(storedFile), events);
    if b1 in Visible(s) && b2 in Visible(s) && b1 != Quit && b2 != Quit {
      OneStepOnScreen(s, b1, b2);
    }
  }

  // ---------------------------------------------------------------------
  // The eye-calibration step after a scene load

  /**
   * The eye-calibration branch also needs the IDGeneration section, which a
   * scene load replaces by MainMenu: a VR participant who has an id but no
   * completed calibration step is then offered nothing but "Quit".
   */
  lemma SceneLoadHidesEyeCalibration(s: Setup)
    requires VRMenuShown(s.manager) && s.manager.uuidGenerated
    requires !s.manager.eyeTrackerCalibrationSuccessful && !s.manager.eyeTrackerValidationSuccessful
    requires !s.manager.seatCalibrationSuccessful
    ensures Visible(Step(s, SceneLoaded)) == {Quit}
  {
  }

  lemma RunOfThree(s: Setup, e1: Event, e2: Event, e3: Event)
    ensures Run(s, [e1, e2, e3]) == Step(Step(Step(s, e1), e2), e3)
  {
    var s1 := Step(s, e1);
    var s2 := Step(s1, e2);
    assert [e1, e2, e3][1..] == [e2, e3];
    assert [e2, e3][1..] == [e3];
    assert [e3][1..] == [];
    assert Run(s, [e1, e2, e3]) == Run(s1, [e2, e3]);
    assert Run(s1, [e2, e3]) == Run(s2, [e3]);
    assert Run(s2, [e3]) == Run(Step(s2, e3), []);
  }

  /** No id yet and no calibration step done. */
  predicate NothingDone(m: CM.ManagerState) {
    !m.uuidGenerated && !m.eyeTrackerCalibrationSuccessful &&
    !m.eyeTrackerValidationSuccessful && !m.seatCalibrationSuccessful
  }

  lemma PressVRModeFirst(s: Setup, guid: string)
    requires s.section == ChoosVRState && NothingDone(s.manager)
    ensures var s' := Step(s, Click(VRMode, guid));
      s'.section == ChooseSteeringInput && s'.manager.calibrationData.VRmode &&
      s'.manager.wasMainMenuLoaded && NothingDone(s'.manager)
  {
    assert VRMode in Visible(s);
  }

  lemma PressSteeringWheelInVR(s: Setup, guid: string)
    requires s.section == ChooseSteeringInput && s.manager.calibrationData.VRmode
    requires s.manager.wasMainMenuLoaded && NothingDone(s.manager)
    ensures var s' := Step(s, Click(SteeringWheel, guid));
      VRMenuShown(s'.manager) && NothingDone(s'.manager)
  {
    assert SteeringWheel in Visible(s);
  }

  lemma PressGenerateIdInVR(s: Setup, guid: string)
    requires VRMenuShown(s.manager) && NothingDone(s.manager)
    ensures var s' := Step(s, Click(GenerateParticipantId, guid));
      s'.section == IDGeneration && VRMenuShown(s'.manager) && s'.manager.uuidGenerated &&
      !s'.manager.eyeTrackerCalibrationSuccessful && !s'.manager.eyeTrackerValidationSuccessful &&
      !s'.manager.seatCalibrationSuccessful
  {
    assert GenerateParticipantId in Visible(s);
  }

  /** Mode, device and id from start-up reach IDGeneration with no calibration step done. */
  lemma SetupReachesIdGeneration(storedFile: Option<CalibrationData>, guid: string)
    ensures var s := Run(Init(storedFile), [Click(VRMode, guid), Click(SteeringWheel, guid), Click(GenerateParticipantId, guid)]);
      s.section == IDGeneration && VRMenuShown(s.manager) && s.manager.uuidGenerated &&
      !s.manager.eyeTrackerCalibrationSuccessful && !s.manager.eyeTrackerValidationSuccessful &&
      !s.manager.seatCalibrationSuccessful
  {
    var s0 := Init(storedFile);
    var s1 := Step(s0, Click(VRMode, guid));
    var s2 := Step(s1, Click(SteeringWheel, guid));
    PressVRModeFirst(s0, guid);
    PressSteeringWheelInVR(s1, guid);
    PressGenerateIdInVR(s2, guid);
    RunOfThree(s0, Click(VRMode, guid), Click(SteeringWheel, guid), Click(GenerateParticipantId, guid));
  }

  /** Such a state is reached by mode, device, id and one scene load. */
  lemma EyeCalibrationCanBeHidden(storedFile: Option<CalibrationData>, guid: string)
    ensures var s := Run(Init(storedFile), [Click(VRMode, guid), Click(SteeringWheel, guid), Click(GenerateParticipantId, guid)]);
      s.section == IDGeneration && StartEyeCalibration in Visible(s) &&
      Visible(Step(s, SceneLoaded)) == {Quit}
  {
    SetupReachesIdGeneration(storedFile, guid);
    var s := Run(Init(storedFile), [Click(VRMode, guid), Click(SteeringWheel, guid), Click(GenerateParticipantId, guid)]);
    EyeCalibrationOfferedIff(s);
    SceneLoadHidesEyeCalibration(s);
  }
}
