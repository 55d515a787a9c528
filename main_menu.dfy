/**
 * The singleton MainMenu: its section field, the scene-loaded callback, the
 * restart, and the immediate-mode GUI handler, each proved to follow
 * MenuWorkflow.Step.
 *
 * A GUI event carries at most one press (`pending`). The button that fires
 * uses up the event, so no later button in the same OnGUI call fires. Each
 * group of buttons the source draws together is a method that runs the
 * handler of the pressed button, if it is one of the group. It returns the
 * event it did not use.
 */
module MainMenuComponent {
  import opened CalibrationRecord
  import CM = CalibrationManagement
  import opened MenuWorkflow

  class MainMenu {
    var section: Section
    /** CalibrationManager.Instance, the manager the menu reads and drives. */
    const manager: CM.CalibrationManager
    /** The calls the menu itself makes outside the model (quit, experiment scenes). */
    ghost var requests: seq<CM.Request>

    ghost function Snapshot(): Setup
      reads this, manager
    {
      Setup(section, requests, manager.State())
    }

    /** Awake: the section starts at the enum's default, ChoosVRState. */
    constructor (manager: CM.CalibrationManager)
      ensures this.manager == manager
      ensures section == Section.ChoosVRState && requests == []
    {
      this.manager := manager;
      section := Section.ChoosVRState;
      requests := [];
    }

    /** Any scene load returns to the main-menu section once the mode has been chosen. */
    method OnSceneLoaded()
      modifies this
      ensures Snapshot() == Step(old(Snapshot()), SceneLoaded)
      ensures section == if manager.GetWasMainMenuLoaded() then Section.MainMenu else old(section)
      ensures requests == old(requests)
    {
      if manager.GetWasMainMenuLoaded() {
        section := Section.MainMenu;
      }
    }

    method ReStartMainMenu()
      modifies this
      ensures Snapshot() == Step(old(Snapshot()), RestartMainMenu)
      ensures section == Section.MainMenu && requests == old(requests)
    {
      section := Section.MainMenu;
    }

    /**
     * One GUI event. `clicked` is the button under the mouse, if any; `guid`
     * is what System.Guid.NewGuid() would return.
     */
    method OnGUI(clicked: Option<Button>, guid: string)
      modifies this, manager
      ensures clicked.None? ==> Snapshot() == old(Snapshot())
      ensures clicked.Some? ==> Snapshot() == Step(old(Snapshot()), Click(clicked.value, guid))
    {
      ghost var s0 := Snapshot();
      var pending := clicked;

      if pending == Some(Quit) {
        requests := requests + [CM.QuitApplication];
        pending := None;
      }
      assert pending.None? && clicked.Some? ==> Snapshot() == Step(s0, Click(clicked.value, guid));
      assert pending.Some? ==> pending == clicked && Snapshot() == s0 && pending != Some(Quit);

      if section == Section.ChoosVRState {
        pending := ModeButtons(pending, guid);
      }
      assert pending.None? && clicked.Some? ==> Snapshot() == Step(s0, Click(clicked.value, guid));
      assert pending.Some? ==> pending == clicked && Snapshot() == s0 && pending != Some(Quit);
      assert pending.Some? && s0.section == Section.ChoosVRState ==> GroupOf(pending.value) != ModeChoice;

      if section == Section.ChooseSteeringInput {
        pending := SteeringButtons(pending, guid);
      }
      assert pending.None? && clicked.Some? ==> Snapshot() == Step(s0, Click(clicked.value, guid));
      assert pending.Some? ==> pending == clicked && Snapshot() == s0 && pending != Some(Quit);
      assert pending.Some? && s0.section == Section.ChoosVRState ==> GroupOf(pending.value) != ModeChoice;
      assert pending.Some? && s0.section == Section.ChooseSteeringInput ==> GroupOf(pending.value) != SteeringChoice;

      if manager.GetVRActivationState() && manager.GetSteeringInputSelectedState() && manager.GetWasMainMenuLoaded() {
        VRMenu(pending, guid);
      } else if !manager.GetVRActivationState() && manager.GetWasMainMenuLoaded() {
        NonVRMenu(pending, guid);
      }
    }

    /** "VR Mode" and "Non-VR Mode". */
    method ModeButtons(pending: Option<Button>, guid: string) returns (rest: Option<Button>)
      modifies this, manager
      ensures pending.Some? && GroupOf(pending.value) == ModeChoice ==>
        rest.None? && Snapshot() == Press(old(Snapshot()), pending.value, guid)
      ensures !(pending.Some? && GroupOf(pending.value) == ModeChoice) ==>
        rest == pending && Snapshot() == old(Snapshot())
    {
      rest := pending;
      if rest == Some(VRMode) {
        manager.StoreVRState(true);
        manager.SetCameraMode(true);
        section := Section.ChooseSteeringInput;
        rest := None;
      }
      if rest == Some(NonVRMode) {
        manager.StoreVRState(false);
        manager.SetCameraMode(false);
        section := Section.ChooseSteeringInput;
        rest := None;
      }
    }

    /** "Steering Wheel", "Xbox One Controller" and "Keyboard". */
    method SteeringButtons(pending: Option<Button>, guid: string) returns (rest: Option<Button>)
      modifies this, manager
      ensures pending.Some? && GroupOf(pending.value) == SteeringChoice ==>
        rest.None? && Snapshot() == Press(old(Snapshot()), pending.value, guid)
      ensures !(pending.Some? && GroupOf(pending.value) == SteeringChoice) ==>
        rest == pending && Snapshot() == old(Snapshot())
    {
      rest := pending;
      if rest == Some(SteeringWheel) {
        manager.StoreSteeringInputDevice("SteeringWheel");
        section := if manager.GetVRActivationState() then Section.MainMenu else Section.NonVRMenu;
        rest := None;
      }
      if rest == Some(XboxOneController) {
        manager.StoreSteeringInputDevice("XboxOneController");
        section := if manager.GetVRActivationState() then Section.MainMenu else Section.NonVRMenu;
        rest := None;
      }
      if rest == Some(Keyboard) {
        manager.StoreSteeringInputDevice("Keyboard");
        section := if manager.GetVRActivationState() then Section.MainMenu else Section.NonVRMenu;
        rest := None;
      }
    }

    /** The VR calibration menu: the first branch of the chain whose condition holds. */
    method VRMenu(pending: Option<Button>, guid: string)
      requires VRMenuShown(manager.State())
      modifies this, manager
      ensures pending.None? ==> Snapshot() == old(Snapshot())
      ensures pending.Some? && pending.value in VRMenuButtons(old(Snapshot())) ==>
        Snapshot() == Press(old(Snapshot()), pending.value, guid)
      ensures pending.Some? && pending.value !in VRMenuButtons(old(Snapshot())) ==>
        Snapshot() == old(Snapshot())
    {
      ghost var s := Snapshot();
      var rest;
      if !manager.GetParticipantUUIDState() {
        assert VRMenuButtons(s) == {GenerateParticipantId};
        rest := GenerateIdButton(pending, guid);
      } else if manager.GetParticipantUUIDState() && !manager.GetEyeTrackerCalibrationState()
             && section == Section.IDGeneration {
        assert VRMenuButtons(s) == {StartEyeCalibration, SkipEyeCalibration};
        rest := EyeCalibrationButtons(pending, guid);
      } else if (manager.GetEyeTrackerCalibrationState() && !manager.GetEyeTrackerValidationState())
             || section == Section.EyeValidation {
        assert VRMenuButtons(s) == {StartEyeValidation, SkipEyeValidation};
        rest := EyeValidationButtons(pending, guid);
      } else if (manager.GetEyeTrackerValidationState() && !manager.GetSeatCalibrationState())
             || section == Section.SeatCalibration {
        assert VRMenuButtons(s) == {StartSeatCalibration, SkipSeatCalibration};
        rest := SeatCalibrationButtons(pending, guid);
      } else if (manager.GetSeatCalibrationState() && !manager.GetTestDriveState())
             || section == Section.TrainingBlock {
        assert VRMenuButtons(s) == {StartTrainingBlock, SkipTrainingBlock};
        rest := TrainingButtons(pending, guid);
      } else {
        assert VRMenuButtons(s) == {};
      }
    }

    /** The non-VR menu: the id button and then, independently, the training buttons. */
    method NonVRMenu(pending: Option<Button>, guid: string)
      requires NonVRMenuShown(manager.State())
      modifies this, manager
      ensures pending.None? ==> Snapshot() == old(Snapshot())
      ensures pending.Some? && pending.value in NonVRMenuButtons(old(Snapshot())) ==>
        Snapshot() == Press(old(Snapshot()), pending.value, guid)
      ensures pending.Some? && pending.value !in NonVRMenuButtons(old(Snapshot())) ==>
        Snapshot() == old(Snapshot())
    {
      ghost var s := Snapshot();
      var rest := pending;
      if !manager.GetParticipantUUIDState() && section == Section.NonVRMenu {
        rest := GenerateIdButton(rest, guid);
      }
      assert rest.None? ==> pending == Some(GenerateParticipantId) || pending.None?;
      assert rest.Some? ==> rest == pending && Snapshot() == s;

      if manager.GetParticipantUUIDState() && !manager.GetTestDriveState() {
        rest := TrainingButtons(rest, guid);
      }
    }

    /** "Generate Participant ID". */
    method GenerateIdButton(pending: Option<Button>, guid: string) returns (rest: Option<Button>)
      modifies this, manager
      ensures pending == Some(GenerateParticipantId) ==>
        rest.None? && Snapshot() == Press(old(Snapshot()), GenerateParticipantId, guid)
      ensures pending != Some(GenerateParticipantId) ==> rest == pending && Snapshot() == old(Snapshot())
    {
      rest := pending;
      if rest == Some(GenerateParticipantId) {
        section := Section.IDGeneration;
        manager.GenerateID(guid);
        rest := None;
      }
    }

    /** "Eye Calibration" and "Skip Eye Calibration". */
    method EyeCalibrationButtons(pending: Option<Button>, guid: string) returns (rest: Option<Button>)
      modifies this, manager
      ensures pending.Some? && GroupOf(pending.value) == EyeCalibrationStep ==>
        rest.None? && Snapshot() == Press(old(Snapshot()), pending.value, guid)
      ensures !(pending.Some? && GroupOf(pending.value) == EyeCalibrationStep) ==>
        rest == pending && Snapshot() == old(Snapshot())
    {
      rest := pending;
      if rest == Some(StartEyeCalibration) {
        manager.EyeCalibration();
        rest := None;
      }
      if rest == Some(SkipEyeCalibration) {
        section := Section.EyeValidation;
        rest := None;
      }
    }

    /** "Eye Validation" and "Skip Eye Validation". */
    method EyeValidationButtons(pending: Option<Button>, guid: string) returns (rest: Option<Button>)
      modifies this, manager
      ensures pending.Some? && GroupOf(pending.value) == EyeValidationStep ==>
        rest.None? && Snapshot() == Press(old(Snapshot()), pending.value, guid)
      ensures !(pending.Some? && GroupOf(pending.value) == EyeValidationStep) ==>
        rest == pending && Snapshot() == old(Snapshot())
    {
      rest := pending;
      if rest == Some(StartEyeValidation) {
        section := Section.EyeValidation;
        manager.EyeValidation();
        rest := None;
      }
      if rest == Some(SkipEyeValidation) {
        section := Section.SeatCalibration;
        rest := None;
      }
    }

    /** "Seat Calibration" and "Skip Seat Calibration". */
    method SeatCalibrationButtons(pending: Option<Button>, guid: string) returns (rest: Option<Button>)
      modifies this, manager
      ensures pending.Some? && GroupOf(pending.value) == SeatCalibrationStep ==>
        rest.None? && Snapshot() == Press(old(Snapshot()), pending.value, guid)
      ensures !(pending.Some? && GroupOf(pending.value) == SeatCalibrationStep) ==>
        rest == pending && Snapshot() == old(Snapshot())
    {
      rest := pending;
      if rest == Some(StartSeatCalibration) {
        section := Section.SeatCalibration;
        manager.SeatCalibration();
        rest := None;
      }
      if rest == Some(SkipSeatCalibration) {
        section := Section.TrainingBlock;
        rest := None;
      }
    }

    /** "Training Block" and "Skip Training Block", in both menus. */
    method TrainingButtons(pending: Option<Button>, guid: string) returns (rest: Option<Button>)
      modifies this, manager
      ensures pending.Some? && GroupOf(pending.value) == TrainingStep ==>
        rest.None? && Snapshot() == Press(old(Snapshot()), pending.value, guid)
      ensures !(pending.Some? && GroupOf(pending.value) == TrainingStep) ==>
        rest == pending && Snapshot() == old(Snapshot())
    {
      rest := pending;
      if rest == Some(StartTrainingBlock) {
        section := Section.TrainingBlock;
        manager.StartTestDrive();
        rest := None;
      }
      if rest == Some(SkipTrainingBlock) {
        section := Section.TrainingBlock;
        requests := requests + [CM.LoadExperimentScenes];
        rest := None;
      }
    }
  }

  /**
   * CalibrationManager.AbortExperiment: the manager records the end time and
   * requests the main-menu scene, then restarts the menu.
   */
  method AbortExperiment(manager: CM.CalibrationManager, menu: MainMenu)
    requires menu.manager == manager
    modifies manager, menu
    ensures menu.Snapshot() == Step(old(menu.Snapshot()), Abort)
  {
    manager.AbortExperiment();
    menu.ReStartMainMenu();
  }
}
