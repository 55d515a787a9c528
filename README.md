# LoopAR experiment setup, modelled in Dafny

This project models the experiment-setup workflow of the LoopAR driving
simulator. Two singletons cooperate:

- `CalibrationManager` holds the participant's progress flags. These are
  main menu loaded, steering chosen, id generated, eye calibration, eye
  validation and seat calibration successful, and test drive successful. It
  also holds the training-trial count and the `CalibrationData` record,
  which some of its methods save to the calibration file.
- `MainMenu` holds a `Section`. On every GUI event it decides which buttons
  are on screen from its section and the manager's flags, and a pressed
  button moves the section and calls into the manager.

Files and modules:

- `calibration_record.dfy` (module `CalibrationRecord`): the record, the
  `Int32` and `Vector3` value types, and `RemoveDashes`. `RemoveDashes` is
  C#'s `Replace("-", "")`, applied to a generated participant id.
- `calibration_manager.dfy` (module `CalibrationManagement`): the manager's
  state as a value (`ManagerState`), its public operations (`Operation`) and
  their effect (`Apply`). It also holds the class `CalibrationManager`,
  whose fields are the source's fields. Every method of that class is proved
  to change the state exactly as `Apply` says. The two exceptions are the
  private `StoreParticipantUuid`, proved against `WithParticipantUuid`, and
  the constructor, proved against `Initial`. The getters are functions
  that read the fields (CalibrationManager.cs:254-323). The `Store*` methods'
  postconditions state the round-trip through them.
- `menu_workflow.dfy` (module `MenuWorkflow`): the menu as a transition
  system on values.
  - `Visible` follows the `if`/`else if` chain of `OnGUI`, quirks included.
  - `Press` is each button's handler.
  - `Step` covers a GUI event, a scene load, a restart, an abort and the
    manager's callbacks.
  - `Run` folds `Step` over a sequence of events.
  - The lemmas cover single presses, every event, and every state reached
    from start-up.
- `main_menu.dfy` (module `MainMenuComponent`): the class `MainMenu`. It has
  the `section` field, `OnSceneLoaded`, `ReStartMainMenu` and `OnGUI`.
  `OnGUI` is written as the source's sequence of `if` blocks. Each group of
  buttons the source draws together is a method of its own. A button that
  fires uses up the event. `OnGUI` is proved to equal one `Step` of the
  workflow. The module also holds `AbortExperiment`, which touches both
  singletons.

Side effects on other components are not carried out. They are appended to
ghost request logs: scene loads, scene changes, the eye-tracker start, the
camera set-up, the experiment end time and quitting. The calibration file is
a ghost snapshot, `file`. It is `None` when no file exists, and a save makes
it the current record. The GUID source is an input string.

Behaviour worth knowing, stated as lemmas:

- No reachable code sets the section to `MainExperiment`. The assignments
  that would do it are commented out (`NoStepEntersMainExperiment`,
  `ReachableStates`). The experiment scenes are still loaded: "Skip
  Training Block" and the manager's `TestDriveEnded` both request them.
  Only the menu's own `MainExperiment` section is never entered.
- The VR menu offers the eye-calibration buttons only while the section is
  `IDGeneration`. A scene load moves the section to `MainMenu`. Suppose
  that happens after an id was generated, and before eye calibration, eye
  validation and seat calibration succeeded. The VR menu then offers no
  step at all, only "Quit" (`SceneLoadHidesEyeCalibration`,
  `EyeCalibrationCanBeHidden`).
- The record's `TrainingSuccessState`, `NumberOfTrainingTrials`, duration
  and frame-rate fields are never written by the manager.
  `TestDriveSuccessState` writes the manager's own fields instead
  (`RecordFieldWriters`).

## Model

| member | source | states |
|---|---|---|
| `CalibrationRecord.NewCalibrationData` | Assets/Scripts/Calibration/CalibrationData.cs:6-22 | a fresh record has null id and device, VR mode off, no training success and zero trials |
| `CalibrationRecord.RemoveDashes` | Assets/Scripts/ExperimentManager/CalibrationManager.cs:80 | the stored id contains no '-' and is never longer than the generated one |
| `CalibrationRecord.RemoveDashesKeepsOtherCharacters` | Assets/Scripts/ExperimentManager/CalibrationManager.cs:80 | every character other than '-' keeps its number of occurrences; the id shrinks by exactly its number of dashes |
| `CalibrationRecord.RemoveDashesConcat` | Assets/Scripts/ExperimentManager/CalibrationManager.cs:80 | removing dashes distributes over concatenation, so the order of the kept characters is preserved |
| `CalibrationRecord.RemoveDashesKeepsDashFree` | Assets/Scripts/ExperimentManager/CalibrationManager.cs:80 | an id without dashes is stored unchanged |
| `CalibrationRecord.RemoveDashesIdempotent` | Assets/Scripts/ExperimentManager/CalibrationManager.cs:80 | storing an already stored id again changes nothing |
| `CalibrationRecord.GuidStoredAsItsDigits` | Assets/Scripts/ExperimentManager/CalibrationManager.cs:135-140 | a GUID in 8-4-4-4-12 text form is stored as its 32 lower-case hex digits, groups in their original order |
| `CalibrationManagement.Initial` | Assets/Scripts/ExperimentManager/CalibrationManager.cs:27-45 | after Awake no flag is set and the trial count is 0; the record is the file's record when a file exists, a fresh `new CalibrationData()` otherwise; the snapshot is the file |
| `CalibrationManagement.Apply` | Assets/Scripts/ExperimentManager/CalibrationManager.cs:135-248 | the effect of every public manager method on the manager's state: the request log only grows, and the file either stays, holds the current record, or is gone |
| `CalibrationManagement.CalibrationManager.GetCalibrationData` | Assets/Scripts/ExperimentManager/CalibrationManager.cs:254-257 | returns the record, as held in the abstract `ManagerState` |
| `CalibrationManagement.CalibrationManager.GetWasMainMenuLoaded` | Assets/Scripts/ExperimentManager/CalibrationManager.cs:259-262 | returns whether the mode has been chosen, as held in the abstract `ManagerState` |
| `CalibrationManagement.CalibrationManager.GetSteeringInputSelectedState` | Assets/Scripts/ExperimentManager/CalibrationManager.cs:264-267 | returns whether a steering device was chosen, as held in the abstract `ManagerState` |
| `CalibrationManagement.CalibrationManager.GetParticipantUUIDState` | Assets/Scripts/ExperimentManager/CalibrationManager.cs:269-272 | returns whether an id was generated, as held in the abstract `ManagerState` |
| `CalibrationManagement.CalibrationManager.GetEyeTrackerCalibrationState` | Assets/Scripts/ExperimentManager/CalibrationManager.cs:274-277 | returns the eye-calibration success flag, as held in the abstract `ManagerState` |
| `CalibrationManagement.CalibrationManager.GetEyeTrackerValidationState` | Assets/Scripts/ExperimentManager/CalibrationManager.cs:279-282 | returns the eye-validation success flag, as held in the abstract `ManagerState` |
| `CalibrationManagement.CalibrationManager.GetSeatCalibrationState` | Assets/Scripts/ExperimentManager/CalibrationManager.cs:284-287 | returns the seat-calibration success flag, as held in the abstract `ManagerState` |
| `CalibrationManagement.CalibrationManager.GetTestDriveState` | Assets/Scripts/ExperimentManager/CalibrationManager.cs:289-292 | returns the test-drive success flag, as held in the abstract `ManagerState` |
| `CalibrationManagement.CalibrationManager.GetTestDriveNumberOfTrials` | Assets/Scripts/ExperimentManager/CalibrationManager.cs:294-297 | returns the training-trial count, as held in the abstract `ManagerState` |
| `CalibrationManagement.CalibrationManager.GetSeatCalibrationOffsetPosition` | Assets/Scripts/ExperimentManager/CalibrationManager.cs:299-302 | returns the record's seat offset, as held in the abstract `ManagerState` |
| `CalibrationManagement.CalibrationManager.GetValidationError` | Assets/Scripts/ExperimentManager/CalibrationManager.cs:304-307 | returns the record's eye-validation error, as held in the abstract `ManagerState` |
| `CalibrationManagement.CalibrationManager.GetVRActivationState` | Assets/Scripts/ExperimentManager/CalibrationManager.cs:309-317 | returns the record's VR mode, as held in the abstract `ManagerState` |
| `CalibrationManagement.CalibrationManager.GetSteeringInputDevice` | Assets/Scripts/ExperimentManager/CalibrationManager.cs:320-323 | returns the record's steering device, as held in the abstract `ManagerState` |
| `CalibrationManagement.FlagsAreMonotone` | Assets/Scripts/ExperimentManager/CalibrationManager.cs:135-232 | no operation clears any flag but the test-drive flag; each success flag changes only through its own callback, the id flag only through GenerateID, the steering flag only through StoreSteeringInputDevice, the menu-loaded flag only through StoreVRState |
| `CalibrationManagement.SuccessCallbacksSetOnlyTheirFlag` | Assets/Scripts/ExperimentManager/CalibrationManager.cs:153-178 | each success callback sets exactly its own flag and leaves the other flags, the record, the trial count and the file unchanged |
| `CalibrationManagement.RequestsChangeNothingElse` | Assets/Scripts/ExperimentManager/CalibrationManager.cs:148-183 | EyeCalibration, EyeValidation, SeatCalibration and StartTestDrive only issue one external request; flags, record and file stay as they were |
| `CalibrationManagement.SavingOperationsPersistTheRecord` | Assets/Scripts/ExperimentManager/CalibrationManager.cs:203-232 | after GenerateID, StoreVRState, the two vector stores and SaveCalibrationData the file equals the current record; delete empties it; every other operation, StoreSteeringInputDevice included, leaves it unchanged |
| `CalibrationManagement.RecordFieldWriters` | Assets/Scripts/ExperimentManager/CalibrationManager.cs:135-232 | each record field has a single writer (id: GenerateID, mode: StoreVRState, device, seat offset, validation error: their Store methods); the training, duration and frame-rate fields are never written |
| `CalibrationManagement.CalibrationManager.constructor` | Assets/Scripts/ExperimentManager/CalibrationManager.cs:33-45 | the new manager's state is `Initial` of the stored file |
| `CalibrationManagement.CalibrationManager.StoreParticipantUuid` | Assets/Scripts/ExperimentManager/CalibrationManager.cs:78-82 | the record's id becomes the dash-free id and the file is saved |
| `CalibrationManagement.CalibrationManager.GenerateID` | Assets/Scripts/ExperimentManager/CalibrationManager.cs:135-140 | the id flag reads true, the record holds the dash-free GUID, and the file holds the record |
| `CalibrationManagement.CalibrationManager.StoreSteeringInputDevice` | Assets/Scripts/ExperimentManager/CalibrationManager.cs:142-146 | the device getter returns the device and the steering getter true; the file is not touched |
| `CalibrationManagement.CalibrationManager.EyeCalibration` | Assets/Scripts/ExperimentManager/CalibrationManager.cs:148-151 | only the eye-tracker calibration request is added |
| `CalibrationManagement.CalibrationManager.EyeCalibrationSuccessful` | Assets/Scripts/ExperimentManager/CalibrationManager.cs:153-156 | the calibration getter reads true; nothing else changes |
| `CalibrationManagement.CalibrationManager.EyeValidation` | Assets/Scripts/ExperimentManager/CalibrationManager.cs:158-161 | only the validation-scene load is requested |
| `CalibrationManagement.CalibrationManager.EyeValidationSuccessful` | Assets/Scripts/ExperimentManager/CalibrationManager.cs:163-167 | the validation getter reads true and the main-menu scene is requested |
| `CalibrationManagement.CalibrationManager.SeatCalibration` | Assets/Scripts/ExperimentManager/CalibrationManager.cs:169-172 | only the change to the seat-calibration scene is requested |
| `CalibrationManagement.CalibrationManager.SeatCalibrationSuccessful` | Assets/Scripts/ExperimentManager/CalibrationManager.cs:174-178 | the seat getter reads true and the main-menu scene is requested |
| `CalibrationManagement.CalibrationManager.StartTestDrive` | Assets/Scripts/ExperimentManager/CalibrationManager.cs:180-183 | only the change to the training scene is requested |
| `CalibrationManagement.CalibrationManager.TestDriveSuccessState` | Assets/Scripts/ExperimentManager/CalibrationManager.cs:185-189 | the test-drive getter returns exactly the given state and the trials getter exactly the given count |
| `CalibrationManagement.CalibrationManager.TestDriveEnded` | Assets/Scripts/ExperimentManager/CalibrationManager.cs:191-194 | only the experiment scenes are requested |
| `CalibrationManagement.CalibrationManager.AbortExperiment` | Assets/Scripts/ExperimentManager/CalibrationManager.cs:196-199 | the end time and the main-menu scene are requested, in that order |
| `CalibrationManagement.CalibrationManager.StoreSeatCalibrationData` | Assets/Scripts/ExperimentManager/CalibrationManager.cs:203-208 | the offset getter returns the stored offset, every other record field is unchanged, and the file holds the record |
| `CalibrationManagement.CalibrationManager.StoreValidationErrorData` | Assets/Scripts/ExperimentManager/CalibrationManager.cs:210-214 | the error getter returns the stored error, every other record field is unchanged, and the file holds the record |
| `CalibrationManagement.CalibrationManager.StoreVRState` | Assets/Scripts/ExperimentManager/CalibrationManager.cs:216-222 | the VR getter returns the stored mode, main-menu-loaded reads true, and the file holds the record |
| `CalibrationManagement.CalibrationManager.SaveCalibrationData` | Assets/Scripts/ExperimentManager/CalibrationManager.cs:224-227 | the file holds the current record |
| `CalibrationManagement.CalibrationManager.DeleteCalibrationData` | Assets/Scripts/ExperimentManager/CalibrationManager.cs:229-232 | there is no file afterwards; the record is kept |
| `CalibrationManagement.CalibrationManager.SetCameraMode` | Assets/Scripts/ExperimentManager/CalibrationManager.cs:238-248 | the VR or the non-VR camera set-up is requested, according to the flag |
| `MenuWorkflow.Init` | Assets/Scripts/ExperimentManager/MainMenu.cs:16-30 | at start-up only "Quit" and the two mode buttons are on screen |
| `MenuWorkflow.VRMenuButtons` | Assets/Scripts/ExperimentManager/MainMenu.cs:150-219 | the VR chain offers "Generate Participant ID" exactly when no id exists, and only calibration, validation, seat and training buttons otherwise |
| `MenuWorkflow.LaterSteps` | Assets/Scripts/ExperimentManager/MainMenu.cs:191-219 | the last two branches offer only seat or training buttons; in the SeatCalibration section the seat pair |
| `MenuWorkflow.NonVRMenuButtons` | Assets/Scripts/ExperimentManager/MainMenu.cs:231-259 | the non-VR menu offers only the id and training buttons, never the id button with a training button, and the training buttons exactly when an id exists and the test drive has not succeeded |
| `MenuWorkflow.Visible` | Assets/Scripts/ExperimentManager/MainMenu.cs:95-270 | "Quit" is always on screen, the mode buttons exactly in ChoosVRState, the device buttons exactly in ChooseSteeringInput |
| `MenuWorkflow.ChooseDevice` | Assets/Scripts/ExperimentManager/MainMenu.cs:129-147 | a device button sets steering chosen and stores the device without saving, then goes to MainMenu in VR mode and to NonVRMenu otherwise |
| `MenuWorkflow.Press` | Assets/Scripts/ExperimentManager/MainMenu.cs:95-258 | no handler removes a logged request or enters MainExperiment |
| `MenuWorkflow.Step` | Assets/Scripts/ExperimentManager/MainMenu.cs:50-65 | no event removes a logged request |
| `MenuWorkflow.Run` | Assets/Scripts/ExperimentManager/MainMenu.cs:71-271 | over any sequence of events the request logs only grow |
| `MenuWorkflow.ChoosingTheMode` | Assets/Scripts/ExperimentManager/MainMenu.cs:112-127 | in ChoosVRState both mode buttons are offered; a press stores that mode, marks the menu loaded, saves, requests the matching camera and moves to ChooseSteeringInput |
| `MenuWorkflow.ChoosingTheSteeringDevice` | Assets/Scripts/ExperimentManager/MainMenu.cs:129-148 | in ChooseSteeringInput the three devices are offered; a press records that device, sets steering chosen, does not save, and moves to MainMenu in VR mode and to NonVRMenu otherwise |
| `MenuWorkflow.GenerateIdOfferedIff` | Assets/Scripts/ExperimentManager/MainMenu.cs:150-243 | "Generate Participant ID" is offered exactly when no id exists, the menu was loaded, and either VR with steering chosen or non-VR in the NonVRMenu section |
| `MenuWorkflow.GeneratingTheId` | Assets/Scripts/ExperimentManager/MainMenu.cs:156-163 | pressing it enters IDGeneration, sets the id flag, stores the dash-free GUID and saves |
| `MenuWorkflow.EyeCalibrationOfferedIff` | Assets/Scripts/ExperimentManager/MainMenu.cs:164-176 | the eye-calibration buttons are offered exactly in the VR menu with an id, no calibration yet, and the section IDGeneration |
| `MenuWorkflow.CalibrationStepsNeedVR` | Assets/Scripts/ExperimentManager/MainMenu.cs:150-231 | an eye or seat button on screen means the VR menu is shown and the non-VR menu is not |
| `MenuWorkflow.SkippingAdvances` | Assets/Scripts/ExperimentManager/MainMenu.cs:164-219 | each skip moves to the next section (EyeValidation, SeatCalibration, TrainingBlock, TrainingBlock) and leaves the manager untouched; skipping training requests the experiment scenes |
| `MenuWorkflow.TrainingButtonsEnterTraining` | Assets/Scripts/ExperimentManager/MainMenu.cs:205-259 | both training buttons, in either menu, set the section to TrainingBlock |
| `MenuWorkflow.NoStepEntersMainExperiment` | Assets/Scripts/ExperimentManager/MainMenu.cs:220-229 | no event moves the section to MainExperiment |
| `MenuWorkflow.PressFlagsGrow` | Assets/Scripts/ExperimentManager/MainMenu.cs:112-219 | no button handler clears a progress flag other than the test-drive flag |
| `MenuWorkflow.StepFlagsGrow` | Assets/Scripts/ExperimentManager/MainMenu.cs:112-270 | no press, scene load, restart, abort or callback clears a flag other than the test-drive flag |
| `MenuWorkflow.RunFlagsGrow` | Assets/Scripts/ExperimentManager/MainMenu.cs:71-271 | the same holds over any sequence of events |
| `MenuWorkflow.PressKeepsConsistent` | Assets/Scripts/ExperimentManager/MainMenu.cs:112-270 | a press of an offered button keeps the reachable-state invariant |
| `MenuWorkflow.StepKeepsConsistent` | Assets/Scripts/ExperimentManager/MainMenu.cs:50-65 | every event keeps the reachable-state invariant (no MainExperiment, the ordering of mode, device and id, a dash-free id, a known device) |
| `MenuWorkflow.RunKeepsConsistent` | Assets/Scripts/ExperimentManager/MainMenu.cs:71-271 | the invariant holds after any sequence of events |
| `MenuWorkflow.OneStepOnScreen` | Assets/Scripts/ExperimentManager/MainMenu.cs:112-270 | in a consistent state all offered buttons other than "Quit" belong to one step |
| `MenuWorkflow.VRMenuOneStep` | Assets/Scripts/ExperimentManager/MainMenu.cs:150-219 | every branch of the VR chain draws the buttons of a single step |
| `MenuWorkflow.NonVRMenuOneStep` | Assets/Scripts/ExperimentManager/MainMenu.cs:231-259 | the non-VR menu's two tests exclude each other, so it draws the buttons of a single step |
| `MenuWorkflow.ReachableStates` | Assets/Scripts/ExperimentManager/MainMenu.cs:16-30 | from start-up, whatever the file held and whatever events follow: never MainExperiment, a generated id has no dash, a chosen device is one of the three names, one step on screen at a time |
| `MenuWorkflow.SceneLoadHidesEyeCalibration` | Assets/Scripts/ExperimentManager/MainMenu.cs:50-56 | a scene load in VR mode with an id and no completed calibration step leaves only "Quit" on screen |
| `MenuWorkflow.SetupReachesIdGeneration` | Assets/Scripts/ExperimentManager/MainMenu.cs:112-163 | "VR Mode", "Steering Wheel" and "Generate Participant ID" from start-up reach IDGeneration in the VR menu with an id and no calibration step done |
| `MenuWorkflow.EyeCalibrationCanBeHidden` | Assets/Scripts/ExperimentManager/MainMenu.cs:164-176 | mode, device and id reach IDGeneration with eye calibration offered, and one scene load then hides it |
| `MainMenuComponent.MainMenu.constructor` | Assets/Scripts/ExperimentManager/MainMenu.cs:30 | the section starts at the enum's default, ChoosVRState, with no requests |
| `MainMenuComponent.MainMenu.OnSceneLoaded` | Assets/Scripts/ExperimentManager/MainMenu.cs:50-56 | the section becomes MainMenu exactly when the manager reports the main menu loaded; otherwise, and everywhere else, nothing changes |
| `MainMenuComponent.MainMenu.ReStartMainMenu` | Assets/Scripts/ExperimentManager/MainMenu.cs:62-65 | the section becomes MainMenu and nothing else changes |
| `MainMenuComponent.MainMenu.OnGUI` | Assets/Scripts/ExperimentManager/MainMenu.cs:71-271 | one GUI event changes menu and manager exactly as `Step` on a click does: an offered button runs its handler, any other event changes nothing |
| `MainMenuComponent.MainMenu.VRMenu` | Assets/Scripts/ExperimentManager/MainMenu.cs:150-230 | only the first branch of the chain whose condition holds is drawn: a press of one of its buttons runs that handler, a press of any other button changes nothing |
| `MainMenuComponent.MainMenu.ModeButtons` | Assets/Scripts/ExperimentManager/MainMenu.cs:112-127 | a press of "VR Mode" or "Non-VR Mode" runs exactly that button's handler and uses up the event; any other event passes through untouched |
| `MainMenuComponent.MainMenu.SteeringButtons` | Assets/Scripts/ExperimentManager/MainMenu.cs:129-148 | a press of one of the three device buttons runs exactly its handler and uses up the event; any other event passes through untouched |
| `MainMenuComponent.MainMenu.GenerateIdButton` | Assets/Scripts/ExperimentManager/MainMenu.cs:156-163 | a press of "Generate Participant ID" enters IDGeneration and generates the id, using up the event; any other event passes through |
| `MainMenuComponent.MainMenu.EyeCalibrationButtons` | Assets/Scripts/ExperimentManager/MainMenu.cs:164-176 | "Eye Calibration" requests the calibration without changing the section; "Skip Eye Calibration" moves to EyeValidation; other events pass through |
| `MainMenuComponent.MainMenu.EyeValidationButtons` | Assets/Scripts/ExperimentManager/MainMenu.cs:177-190 | "Eye Validation" enters EyeValidation and requests the validation scene; its skip moves to SeatCalibration; other events pass through |
| `MainMenuComponent.MainMenu.SeatCalibrationButtons` | Assets/Scripts/ExperimentManager/MainMenu.cs:191-204 | "Seat Calibration" enters SeatCalibration and requests the seat scene; its skip moves to TrainingBlock; other events pass through |
| `MainMenuComponent.MainMenu.TrainingButtons` | Assets/Scripts/ExperimentManager/MainMenu.cs:205-219 | "Training Block" enters TrainingBlock and starts the test drive; its skip enters TrainingBlock and requests the experiment scenes; other events pass through |
| `MainMenuComponent.MainMenu.NonVRMenu` | Assets/Scripts/ExperimentManager/MainMenu.cs:231-270 | the id button is drawn only in the NonVRMenu section without an id, the training buttons whenever an id exists and the test drive has not succeeded; a generated id does not also fire a training button in the same event |
| `MainMenuComponent.AbortExperiment` | Assets/Scripts/ExperimentManager/CalibrationManager.cs:196-201 | the manager requests the end time and the main menu, and the menu's section becomes MainMenu |

## Left out

- GUI layout and styling: button rectangles, colours, font sizes and the title label are rendering only.
- Unity's immediate-mode GUI mechanics. `OnGUI` receives the button under the mouse as an input, and one press per event is modelled by using up that input. Control ids, hot controls and mouse positions are not modelled. In particular, "VR Mode" and "Steering Wheel" share one rectangle, and the model does not say which of them a click hits.
- File I/O and JSON. The file is the abstract snapshot `file`, so `LoadCalibrationFile`, `SaveCalibrationFile`, `DeleteCalibrationFile` (and its "not found" log message) are not modelled, nor are `GetPathForSaveFile`, `GetPathForSaveFolder` or the directory creation in `Awake`. These are library calls.
- Unity singleton set-up (`Instance`, `Destroy`, `DontDestroyOnLoad`, the `sceneLoaded` subscription): engine lifecycle. The model keeps one `MainMenu` object across scene loads. The engine destroys and recreates the menu's object when scenes change. A recreated menu starts again at `ChoosVRState`. The model's scene load keeps the old section while no mode has been stored. So an abort followed by a scene load before the mode is chosen leaves only "Quit" in the model. The program would offer the mode buttons again.
- `System.Guid.NewGuid`: randomness. Its result is a parameter, and `GuidStoredAsItsDigits` describes the case where it has the standard text form.
- The components the manager and the menu call are not part of this model: EyetrackingManager, SceneManager, SceneLoadingHandler, CameraManager, TimeManager and `Application.Quit`. Their calls are recorded as requests. The model assumes those singletons exist and that every call into them returns normally. A call that threw would stop the rest of its handler. For example, a failing camera set-up after "VR Mode" would leave the section at `ChoosVRState` with the mode already stored and saved, a state `Consistent` excludes.
- `GetCalibrationData` returns a reference in C#, so a caller could change the record in place. The model returns a value and does not capture that aliasing.
- `Step` lets other components call the manager only through its callbacks: the success callbacks, the two vector stores, `TestDriveSuccessState`, `TestDriveEnded`, save and delete, and the abort. `StoreVRState`, `StoreSteeringInputDevice`, `GenerateID`, `SetCameraMode` and the request methods are reached only through the menu, as in the files modelled. `ReachableStates` relies on that.
- Vector3, double and float values are stored as reals and only read back. No floating-point arithmetic happens in the core.
- The other scripts of the repository are not part of this model: scene loading, eye-tracking validation, the time manager, the chase camera, the traffic-event trigger, data saving and the Autobahn manager. They are engine coroutines, physics callbacks and floating-point numerics.
