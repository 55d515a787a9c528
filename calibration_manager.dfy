/**
 * The calibration manager: the participant's progress flags, the calibration
 * record, and the requests the manager hands to the eye tracker, the scene
 * loader and the cameras.
 *
 * `ManagerState` and `Apply` describe every public operation on values; the
 * class `CalibrationManager` updates its fields in place and is proved to
 * follow `Apply`.
 */
module CalibrationManagement {
  import opened CalibrationRecord

  /** A request handed to code outside the model; it is logged, not carried out. */
  datatype Request =
    | StartEyeTrackerCalibration      // EyetrackingManager.StartCalibration
    | LoadScene(scene: string)        // SceneManager.LoadSceneAsync
    | ChangeScene(scene: string)      // SceneLoadingHandler.SceneChange
    | LoadExperimentScenes            // SceneLoadingHandler.LoadExperimentScenes
    | VRCameraSetUp                   // CameraManager.VRModeCameraSetUp
    | NonVRCameraSetUp                // CameraManager.NonVRModeCameraSetUp
    | SetExperimentEndTime            // TimeManager.SetExperimentEndTime
    | QuitApplication                 // Application.Quit

  /**
   * Everything the manager holds: its seven flags, the record and the trial
   * count, plus what is persisted in the calibration file (`file`, None when
   * there is no file) and the requests issued so far.
   */
  datatype ManagerState = ManagerState(
    wasMainMenuLoaded: bool,
    steeringInputGiven: bool,
    uuidGenerated: bool,
    eyeTrackerCalibrationSuccessful: bool,
    eyeTrackerValidationSuccessful: bool,
    seatCalibrationSuccessful: bool,
    testDriveSuccessful: bool,
    calibrationData: CalibrationData,
    numberOfTrainingTrials: Int32,
    file: Option<CalibrationData>,
    requests: seq<Request>)

  /** The public operations of the manager, with their arguments. */
  datatype Operation =
    | GenerateID(guid: string)
    | StoreSteeringInputDevice(steeringDevice: string)
    | EyeCalibration
    | EyeCalibrationSuccessful
    | EyeValidation
    | EyeValidationSuccessful
    | SeatCalibration
    | SeatCalibrationSuccessful
    | StartTestDrive
    | TestDriveSuccessState(state: bool, trials: Int32)
    | TestDriveEnded
    | AbortExperiment
    | StoreSeatCalibrationData(seatOffset: Vector3)
    | StoreValidationErrorData(validationError: Vector3)
    | StoreVRState(vRMode: bool)
    | SaveCalibrationData
    | DeleteCalibrationData
    | SetCameraMode(vrModeState: bool)

  /**
   * The manager right after Awake: no flag set, no trial, and the record read
   * from the calibration file when there is one, a fresh record otherwise.
   */
  function Initial(storedFile: Option<CalibrationData>): (m: ManagerState)
    ensures !m.wasMainMenuLoaded && !m.steeringInputGiven && !m.uuidGenerated
    ensures !m.eyeTrackerCalibrationSuccessful && !m.eyeTrackerValidationSuccessful
    ensures !m.seatCalibrationSuccessful && !m.testDriveSuccessful
    ensures storedFile.Some? ==> m.calibrationData == storedFile.value
    ensures storedFile.None? ==> m.calibrationData == NewCalibrationData()
    ensures m.numberOfTrainingTrials == 0
    ensures m.file == storedFile && m.requests == []
  {
    var data := match storedFile
      case Some(d) => d
      case None => NewCalibrationData();
    ManagerState(false, false, false, false, false, false, false, data, 0, storedFile, [])
  }

  /** SaveCalibrationData: the file now holds the current record. */
  function Saved(m: ManagerState): ManagerState {
    m.(file := Some(m.calibrationData))
  }

  function Issue(m: ManagerState, r: Request): ManagerState {
    m.(requests := m.requests + [r])
  }

  /** The private StoreParticipantUuid: the id without dashes, then a save. */
  function WithParticipantUuid(m: ManagerState, id: string): ManagerState {
    Saved(m.(calibrationData := m.calibrationData.(ParticipantUuid := Some(RemoveDashes(id)))))
  }

  /** The effect of one public operation on the manager. */
  function Apply(m: ManagerState, op: Operation): (r: ManagerState)
    ensures m.requests <= r.requests
    ensures r.file == m.file || r.file == Some(r.calibrationData) || r.file.None?
  {
    match op
    case GenerateID(guid) =>
      WithParticipantUuid(m, guid).(uuidGenerated := true)
    case StoreSteeringInputDevice(device) =>
      m.(calibrationData := m.calibrationData.(SteeringInputDevice := Some(device)),
         steeringInputGiven := true)
    case EyeCalibration =>
      Issue(m, StartEyeTrackerCalibration)
    case EyeCalibrationSuccessful =>
      m.(eyeTrackerCalibrationSuccessful := true)
    case EyeValidation =>
      Issue(m, LoadScene("EyetrackingValidation"))
    case EyeValidationSuccessful =>
      Issue(m.(eyeTrackerValidationSuccessful := true), LoadScene("MainMenu"))
    case SeatCalibration =>
      Issue(m, ChangeScene("SeatCalibrationScene"))
    case SeatCalibrationSuccessful =>
      Issue(m.(seatCalibrationSuccessful := true), LoadScene("MainMenu"))
    case StartTestDrive =>
      Issue(m, ChangeScene("TrainingScene"))
    case TestDriveSuccessState(state, trials) =>
      m.(testDriveSuccessful := state, numberOfTrainingTrials := trials)
    case TestDriveEnded =>
      Issue(m, LoadExperimentScenes)
    case AbortExperiment =>
      Issue(Issue(m, SetExperimentEndTime), LoadScene("MainMenu"))
    case StoreSeatCalibrationData(offset) =>
      Saved(m.(calibrationData := m.calibrationData.(SeatCalibrationOffset := offset)))
    case StoreValidationErrorData(error) =>
      Saved(m.(calibrationData := m.calibrationData.(EyeValidationError := error)))
    case StoreVRState(vr) =>
      Saved(m.(calibrationData := m.calibrationData.(VRmode := vr), wasMainMenuLoaded := true))
    case SaveCalibrationData =>
      Saved(m)
    case DeleteCalibrationData =>
      m.(file := None)
    case SetCameraMode(vr) =>
      Issue(m, if vr then VRCameraSetUp else NonVRCameraSetUp)
  }

  /** The operations that only hand a request to another component. */
  predicate IsRequest(op: Operation) {
    op.EyeCalibration? || op.EyeValidation? || op.SeatCalibration? || op.StartTestDrive?
  }

  /** The operations that end by writing the record to the calibration file. */
  predicate Saves(op: Operation) {
    op.GenerateID? || op.StoreVRState? || op.StoreSeatCalibrationData? ||
    op.StoreValidationErrorData? || op.SaveCalibrationData?
  }

  /** The flags that, once true, stay true: all but the test-drive flag. */
  predicate FlagsGrow(m: ManagerState, m': ManagerState) {
    (m.wasMainMenuLoaded ==> m'.wasMainMenuLoaded) &&
    (m.steeringInputGiven ==> m'.steeringInputGiven) &&
    (m.uuidGenerated ==> m'.uuidGenerated) &&
    (m.eyeTrackerCalibrationSuccessful ==> m'.eyeTrackerCalibrationSuccessful) &&
    (m.eyeTrackerValidationSuccessful ==> m'.eyeTrackerValidationSuccessful) &&
    (m.seatCalibrationSuccessful ==> m'.seatCalibrationSuccessful)
  }

  /**
   * No operation clears a progress flag other than the test-drive flag, and
   * each success flag is set only by its own callback.
   */
  lemma FlagsAreMonotone(m: ManagerState, op: Operation)
    ensures FlagsGrow(m, Apply(m, op))
    ensures Apply(m, op).eyeTrackerCalibrationSuccessful != m.eyeTrackerCalibrationSuccessful
      ==> op == EyeCalibrationSuccessful
    ensures Apply(m, op).eyeTrackerValidationSuccessful != m.eyeTrackerValidationSuccessful
      ==> op == EyeValidationSuccessful
    ensures Apply(m, op).seatCalibrationSuccessful != m.seatCalibrationSuccessful
      ==> op == SeatCalibrationSuccessful
    ensures Apply(m, op).uuidGenerated != m.uuidGenerated ==> op.GenerateID?
    ensures Apply(m, op).steeringInputGiven != m.steeringInputGiven ==> op.StoreSteeringInputDevice?
    ensures Apply(m, op).wasMainMenuLoaded != m.wasMainMenuLoaded ==> op.StoreVRState?
  {
    match op {
      case GenerateID(_) =>
      case StoreSteeringInputDevice(_) =>
      case EyeCalibration =>
      case EyeCalibrationSuccessful =>
      case EyeValidation =>
      case EyeValidationSuccessful =>
      case SeatCalibration =>
      case SeatCalibrationSuccessful =>
      case StartTestDrive =>
      case TestDriveSuccessState(_, _) =>
      case TestDriveEnded =>
      case AbortExperiment =>
      case StoreSeatCalibrationData(_) =>
      case StoreValidationErrorData(_) =>
      case StoreVRState(_) =>
      case SaveCalibrationData =>
      case DeleteCalibrationData =>
      case SetCameraMode(_) =>
    }
  }

  /**
   * Each success callback sets its own flag and changes no other flag, no
   * record field and no file.
   */
  lemma SuccessCallbacksSetOnlyTheirFlag(m: ManagerState, op: Operation)
    requires op == EyeCalibrationSuccessful || op == EyeValidationSuccessful || op == SeatCalibrationSuccessful
    ensures var m' := Apply(m, op);
      m'.calibrationData == m.calibrationData && m'.file == m.file &&
      m'.numberOfTrainingTrials == m.numberOfTrainingTrials &&
      m'.testDriveSuccessful == m.testDriveSuccessful &&
      m'.wasMainMenuLoaded == m.wasMainMenuLoaded && m'.steeringInputGiven == m.steeringInputGiven &&
      m'.uuidGenerated == m.uuidGenerated &&
      m'.eyeTrackerCalibrationSuccessful == (m.eyeTrackerCalibrationSuccessful || op == EyeCalibrationSuccessful) &&
      m'.eyeTrackerValidationSuccessful == (m.eyeTrackerValidationSuccessful || op == EyeValidationSuccessful) &&
      m'.seatCalibrationSuccessful == (m.seatCalibrationSuccessful || op == SeatCalibrationSuccessful)
  {
  }

  /**
   * The request operations change no flag, no record field and no file: the
   * manager only gains one request.
   */
  lemma RequestsChangeNothingElse(m: ManagerState, op: Operation)
    requires IsRequest(op)
    ensures Apply(m, op).(requests := m.requests) == m
    ensures |Apply(m, op).requests| == |m.requests| + 1
  {
    match op {
      case EyeCalibration =>
      case EyeValidation =>
      case SeatCalibration =>
      case StartTestDrive =>
    }
  }

  /**
   * After each saving operation the file holds exactly the current record;
   * every other operation leaves the file alone, except the delete.
   */
  lemma SavingOperationsPersistTheRecord(m: ManagerState, op: Operation)
    ensures Saves(op) ==> Apply(m, op).file == Some(Apply(m, op).calibrationData)
    ensures !Saves(op) && !op.DeleteCalibrationData? ==> Apply(m, op).file == m.file
    ensures op.DeleteCalibrationData? ==> Apply(m, op).file.None?
  {
    match op {
      case GenerateID(_) =>
      case StoreSteeringInputDevice(_) =>
      case EyeCalibration =>
      case EyeCalibrationSuccessful =>
      case EyeValidation =>
      case EyeValidationSuccessful =>
      case SeatCalibration =>
      case SeatCalibrationSuccessful =>
      case StartTestDrive =>
      case TestDriveSuccessState(_, _) =>
      case TestDriveEnded =>
      case AbortExperiment =>
      case StoreSeatCalibrationData(_) =>
      case StoreValidationErrorData(_) =>
      case StoreVRState(_) =>
      case SaveCalibrationData =>
      case DeleteCalibrationData =>
      case SetCameraMode(_) =>
    }
  }

  /**
   * Which operation writes which record field: the id only through
   * GenerateID, the mode only through StoreVRState, the device only through
   * StoreSteeringInputDevice, the two vectors only through their Store
   * operations, and the training, duration and frame-rate fields never.
   */
  lemma RecordFieldWriters(m: ManagerState, op: Operation)
    ensures var d, d' := m.calibrationData, Apply(m, op).calibrationData;
      (d'.ParticipantUuid != d.ParticipantUuid ==> op.GenerateID?) &&
      (d'.VRmode != d.VRmode ==> op.StoreVRState?) &&
      (d'.SteeringInputDevice != d.SteeringInputDevice ==> op.StoreSteeringInputDevice?) &&
      (d'.SeatCalibrationOffset != d.SeatCalibrationOffset ==> op.StoreSeatCalibrationData?) &&
      (d'.EyeValidationError != d.EyeValidationError ==> op.StoreValidationErrorData?) &&
      d'.TrainingSuccessState == d.TrainingSuccessState &&
      d'.NumberOfTrainingTrials == d.NumberOfTrainingTrials &&
      d'.ExperimentDuration == d.ExperimentDuration &&
      d'.ApplicationDuration == d.ApplicationDuration &&
      d'.AverageExperimentFPS == d.AverageExperimentFPS
  {
    match op {
      case GenerateID(_) =>
      case StoreSteeringInputDevice(_) =>
      case EyeCalibration =>
      case EyeCalibrationSuccessful =>
      case EyeValidation =>
      case EyeValidationSuccessful =>
      case SeatCalibration =>
      case SeatCalibrationSuccessful =>
      case StartTestDrive =>
      case TestDriveSuccessState(_, _) =>
      case TestDriveEnded =>
      case AbortExperiment =>
      case StoreSeatCalibrationData(_) =>
      case StoreValidationErrorData(_) =>
      case StoreVRState(_) =>
      case SaveCalibrationData =>
      case DeleteCalibrationData =>
      case SetCameraMode(_) =>
    }
  }

  /**
   * The singleton CalibrationManager. The real fields are the source's; the
   * ghost `file` is what the calibration file holds and the ghost `requests`
   * logs the calls the manager makes into other components.
   */
  class CalibrationManager {
    var wasMainMenuLoaded: bool
    var steeringInputGiven: bool
    var uuidGenerated: bool
    var eyeTrackerCalibrationSuccessful: bool
    var eyeTrackerValidationSuccessful: bool
    var seatCalibrationSuccessful: bool
    var testDriveSuccessful: bool
    var calibrationData: CalibrationData
    var numberOfTrainingTrials: Int32
    ghost var file: Option<CalibrationData>
    ghost var requests: seq<Request>

    ghost function State(): ManagerState
      reads this
    {
      ManagerState(wasMainMenuLoaded, steeringInputGiven, uuidGenerated,
        eyeTrackerCalibrationSuccessful, eyeTrackerValidationSuccessful,
        seatCalibrationSuccessful, testDriveSuccessful,
        calibrationData, numberOfTrainingTrials, file, requests)
    }

    /** Awake: `storedFile` is the calibration file's record, if the file exists. */
    constructor (storedFile: Option<CalibrationData>)
      ensures State() == Initial(storedFile)
    {
      wasMainMenuLoaded, steeringInputGiven, uuidGenerated := false, false, false;
      eyeTrackerCalibrationSuccessful, eyeTrackerValidationSuccessful := false, false;
      seatCalibrationSuccessful, testDriveSuccessful := false, false;
      numberOfTrainingTrials := 0;
      match storedFile {
        case Some(d) => calibrationData := d;
        case None => calibrationData := NewCalibrationData();
      }
      file := storedFile;
      requests := [];
    }

    method StoreParticipantUuid(id: string)
      modifies this
      ensures State() == WithParticipantUuid(old(State()), id)
    {
      calibrationData := calibrationData.(ParticipantUuid := Some(RemoveDashes(id)));
      SaveCalibrationData();
    }

    /** `guid` is the text System.Guid.NewGuid().ToString() returned. */
    method GenerateID(guid: string)
      modifies this
      ensures State() == Apply(old(State()), Operation.GenerateID(guid))
      ensures GetParticipantUUIDState()
      ensures calibrationData.ParticipantUuid == Some(RemoveDashes(guid))
      ensures file == Some(calibrationData)
    {
      StoreParticipantUuid(guid);
      uuidGenerated := true;
    }

    method StoreSteeringInputDevice(steeringDevice: string)
      modifies this
      ensures State() == Apply(old(State()), Operation.StoreSteeringInputDevice(steeringDevice))
      ensures GetSteeringInputDevice() == Some(steeringDevice) && GetSteeringInputSelectedState()
      ensures file == old(file)
    {
      calibrationData := calibrationData.(SteeringInputDevice := Some(steeringDevice));
      steeringInputGiven := true;
    }

    method EyeCalibration()
      modifies this
      ensures State() == Apply(old(State()), Operation.EyeCalibration)
    {
      requests := requests + [StartEyeTrackerCalibration];
    }

    method EyeCalibrationSuccessful()
      modifies this
      ensures State() == Apply(old(State()), Operation.EyeCalibrationSuccessful)
      ensures GetEyeTrackerCalibrationState()
    {
      eyeTrackerCalibrationSuccessful := true;
    }

    method EyeValidation()
      modifies this
      ensures State() == Apply(old(State()), Operation.EyeValidation)
    {
      requests := requests + [LoadScene("EyetrackingValidation")];
    }

    method EyeValidationSuccessful()
      modifies this
      ensures State() == Apply(old(State()), Operation.EyeValidationSuccessful)
      ensures GetEyeTrackerValidationState()
    {
      eyeTrackerValidationSuccessful := true;
      requests := requests + [LoadScene("MainMenu")];
    }

    method SeatCalibration()
      modifies this
      ensures State() == Apply(old(State()), Operation.SeatCalibration)
    {
      requests := requests + [ChangeScene("SeatCalibrationScene")];
    }

    method SeatCalibrationSuccessful()
      modifies this
      ensures State() == Apply(old(State()), Operation.SeatCalibrationSuccessful)
      ensures GetSeatCalibrationState()
    {
      seatCalibrationSuccessful := true;
      requests := requests + [LoadScene("MainMenu")];
    }

    method StartTestDrive()
      modifies this
      ensures State() == Apply(old(State()), Operation.StartTestDrive)
    {
      requests := requests + [ChangeScene("TrainingScene")];
    }

    method TestDriveSuccessState(state: bool, trials: Int32)
      modifies this
      ensures State() == Apply(old(State()), Operation.TestDriveSuccessState(state, trials))
      ensures GetTestDriveState() == state && GetTestDriveNumberOfTrials() == trials
    {
      testDriveSuccessful := state;
      numberOfTrainingTrials := trials;
    }

    method TestDriveEnded()
      modifies this
      ensures State() == Apply(old(State()), Operation.TestDriveEnded)
    {
      requests := requests + [LoadExperimentScenes];
    }

    /**
     * The manager's part of AbortExperiment; the call back into the menu is
     * made by MainMenuComponent.AbortExperiment.
     */
    method AbortExperiment()
      modifies this
      ensures State() == Apply(old(State()), Operation.AbortExperiment)
    {
      requests := requests + [SetExperimentEndTime];
      requests := requests + [LoadScene("MainMenu")];
    }

    method StoreSeatCalibrationData(seatOffset: Vector3)
      modifies this
      ensures State() == Apply(old(State()), Operation.StoreSeatCalibrationData(seatOffset))
      ensures GetSeatCalibrationOffsetPosition() == seatOffset
      ensures calibrationData == old(calibrationData).(SeatCalibrationOffset := seatOffset)
      ensures file == Some(calibrationData)
    {
      calibrationData := calibrationData.(SeatCalibrationOffset := seatOffset);
      SaveCalibrationData();
    }

    method StoreValidationErrorData(validationError: Vector3)
      modifies this
      ensures State() == Apply(old(State()), Operation.StoreValidationErrorData(validationError))
      ensures GetValidationError() == validationError
      ensures calibrationData == old(calibrationData).(EyeValidationError := validationError)
      ensures file == Some(calibrationData)
    {
      calibrationData := calibrationData.(EyeValidationError := validationError);
      SaveCalibrationData();
    }

    method StoreVRState(vRMode: bool)
      modifies this
      ensures State() == Apply(old(State()), Operation.StoreVRState(vRMode))
      ensures GetVRActivationState() == vRMode && GetWasMainMenuLoaded()
      ensures file == Some(calibrationData)
    {
      ghost var before := State();
      ghost var after := Saved(before.(calibrationData := before.calibrationData.(VRmode := vRMode), wasMainMenuLoaded := true));
      assert Apply(before, Operation.StoreVRState(vRMode)) == after;
      calibrationData := calibrationData.(VRmode := vRMode);
      wasMainMenuLoaded := true;
      // The source assigns this flag twice in a row; the repetition is kept.
      wasMainMenuLoaded := true;
      SaveCalibrationData();
      assert State() == after;
    }

    method SaveCalibrationData()
      modifies this
      ensures State() == Apply(old(State()), Operation.SaveCalibrationData)
      ensures State() == Saved(old(State()))
    {
      file := Some(calibrationData);
    }

    method DeleteCalibrationData()
      modifies this
      ensures State() == Apply(old(State()), Operation.DeleteCalibrationData)
    {
      file := None;
    }

    method SetCameraMode(vrModeState: bool)
      modifies this
      ensures State() == Apply(old(State()), Operation.SetCameraMode(vrModeState))
    {
      if vrModeState {
        requests := requests + [VRCameraSetUp];
      } else {
        requests := requests + [NonVRCameraSetUp];
      }
    }

    // The getters: each reports one component of the abstract state that
    // ManagerState and the menu's workflow reason about.

    function GetCalibrationData(): (r: CalibrationData)
      reads this
      ensures r == State().calibrationData
    {
      calibrationData
    }

    function GetWasMainMenuLoaded(): (r: bool)
      reads this
      ensures r == State().wasMainMenuLoaded
    {
      wasMainMenuLoaded
    }

    function GetSteeringInputSelectedState(): (r: bool)
      reads this
      ensures r == State().steeringInputGiven
    {
      steeringInputGiven
    }

    function GetParticipantUUIDState(): (r: bool)
      reads this
      ensures r == State().uuidGenerated
    {
      uuidGenerated
    }

    function GetEyeTrackerCalibrationState(): (r: bool)
      reads this
      ensures r == State().eyeTrackerCalibrationSuccessful
    {
      eyeTrackerCalibrationSuccessful
    }

    function GetEyeTrackerValidationState(): (r: bool)
      reads this
      ensures r == State().eyeTrackerValidationSuccessful
    {
      eyeTrackerValidationSuccessful
    }

    function GetSeatCalibrationState(): (r: bool)
      reads this
      ensures r == State().seatCalibrationSuccessful
    {
      seatCalibrationSuccessful
    }

    function GetTestDriveState(): (r: bool)
      reads this
      ensures r == State().testDriveSuccessful
    {
      testDriveSuccessful
    }

    function GetTestDriveNumberOfTrials(): (r: Int32)
      reads this
      ensures r == State().numberOfTrainingTrials
    {
      numberOfTrainingTrials
    }

    function GetSeatCalibrationOffsetPosition(): (r: Vector3)
      reads this
      ensures r == State().calibrationData.SeatCalibrationOffset
    {
      calibrationData.SeatCalibrationOffset
    }

    function GetValidationError(): (r: Vector3)
      reads this
      ensures r == State().calibrationData.EyeValidationError
    {
      calibrationData.EyeValidationError
    }

    function GetVRActivationState(): (r: bool)
      reads this
      ensures r == State().calibrationData.VRmode
    {
      calibrationData.VRmode
    }

    function GetSteeringInputDevice(): (r: Option<string>)
      reads this
      ensures r == State().calibrationData.SteeringInputDevice
    {
      calibrationData.SteeringInputDevice
    }
  }
}
