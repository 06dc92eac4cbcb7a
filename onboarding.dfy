/**
 * The onboarding demo: a five-step wizard whose progress record is persisted under the
 * storage key `onboarding` as `{onboarding: step, completed}`.
 */
module Onboarding {
  import opened Wrappers
  import opened Stepper

  /** What reading the `onboarding` key yields: text that does not parse as such a record, or
      a record whose `onboarding` field may be missing and whose `completed` is read for its
      truthiness. */
  datatype StoredOnboarding = Unparseable | Record(onboarding: Option<int>, completed: bool)

  /** The number of steps in the demo's wizard. */
  const StepCount := 5
  const DiscordSettingsPath := "/settings/discord"

  class OnboardingDemo {
    const dialog: SteppedModal
    var isModalOpen: bool
    var currentStep: int
    /** The value under the `onboarding` storage key, `None` when the key is absent. */
    var storage: Option<StoredOnboarding>

    ghost predicate Valid()
      reads this, dialog
    {
      dialog.Valid() && dialog.totalSteps == StepCount && dialog.hasOnComplete
    }

    /** The component before its mount effect: dialog closed, step 0, over the given storage. */
    constructor (storage: Option<StoredOnboarding>)
      ensures Valid() && fresh(dialog)
      ensures !isModalOpen && currentStep == 0 && this.storage == storage
      ensures dialog.currentStep == 0
    {
      dialog := new SteppedModal(StepCount, true);
      isModalOpen := false;
      currentStep := 0;
      this.storage := storage;
    }

    /**
     * The mount effect: a record with a step restores it, and a record not marked completed
     * opens the dialog. A missing key or unparseable text changes nothing.
     */
    method Mount()
      modifies this`currentStep, this`isModalOpen
      ensures storage.None? || storage == Some(Unparseable) ==>
        currentStep == old(currentStep) && isModalOpen == old(isModalOpen)
      ensures storage.Some? && storage.value.Record? ==>
        currentStep == storage.value.onboarding.GetOr(old(currentStep)) &&
        isModalOpen == (old(isModalOpen) || !storage.value.completed)
    {
      match storage {
        case None =>
        case Some(Unparseable) =>
        case Some(Record(onboarding, completed)) =>
          if onboarding.Some? {
            currentStep := onboarding.value;
          }
          if !completed {
            isModalOpen := true;
          }
      }
    }

    /** Writes the current step as a completed record. */
    method HandleStoreValue()
      modifies this`storage
      ensures storage == Some(Record(Some(currentStep), true))
    {
      storage := Some(Record(Some(currentStep), true));
    }

    /** The wizard's `onComplete`. */
    method HandleComplete()
      modifies this`storage
      ensures storage == Some(Record(Some(currentStep), true))
    {
      HandleStoreValue();
    }

    /** The "here" link of the Discord step: store, then go to the Discord settings. */
    method HandleDiscordIntegration() returns (navigateTo: string)
      modifies this`storage
      ensures storage == Some(Record(Some(currentStep), true))
      ensures navigateTo == DiscordSettingsPath
    {
      HandleStoreValue();
      navigateTo := DiscordSettingsPath;
    }

    /** The "Start Onboarding" button. */
    method StartOnboarding()
      modifies this`isModalOpen
      ensures isModalOpen
    {
      isModalOpen := true;
    }

    /** The wizard's Next button, with the callbacks it fires applied to this component. */
    method PressNext()
      requires Valid()
      modifies this`storage, this`isModalOpen, dialog
      ensures Valid()
      ensures old(dialog.currentStep) < StepCount - 1 ==>
        dialog.currentStep == old(dialog.currentStep) + 1 &&
        storage == old(storage) && isModalOpen == old(isModalOpen)
      ensures old(dialog.currentStep) == StepCount - 1 ==>
        dialog.currentStep == old(dialog.currentStep) &&
        storage == Some(Record(Some(currentStep), true)) && !isModalOpen
    {
      var calls := dialog.HandleNext();
      if calls == [OnComplete, OnClose] {
        HandleComplete();
        isModalOpen := false;
      }
    }

    /** The wizard's Cancel button (or the dialog being dismissed). */
    method PressCancel()
      requires Valid()
      modifies this`isModalOpen, dialog
      ensures Valid() && dialog.currentStep == 0 && !isModalOpen
    {
      var calls := dialog.HandleClose();
      isModalOpen := false;
    }
  }

  /**
   * Finishing the wizard and mounting the demo again (a reload over the same storage) restores
   * the stored step and keeps the dialog closed. The step stored is the demo's own
   * `currentStep`, which the wizard's moves do not change.
   */
  method FinishThenRemount(demo: OnboardingDemo) returns (later: OnboardingDemo)
    requires demo.Valid() && demo.dialog.currentStep == StepCount - 1
    modifies demo`storage, demo`isModalOpen, demo.dialog
    ensures later.currentStep == demo.currentStep == old(demo.currentStep)
    ensures !later.isModalOpen
  {
    demo.PressNext();
    later := new OnboardingDemo(demo.storage);
    later.Mount();
  }
}
