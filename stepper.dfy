/** The step wizard dialog: a single current-step index moved by Next, Back and Cancel/close. */
module Stepper {

  /** The callbacks the dialog invokes on its parent, in the order it invokes them. */
  datatype Callback = OnComplete | OnClose

  class SteppedModal {
    /** `steps.length`. */
    const totalSteps: nat
    /** Whether the parent passed the optional `onComplete` callback. */
    const hasOnComplete: bool
    var currentStep: nat

    /** The index names a step, or is the initial 0 of a dialog without steps. */
    ghost predicate Valid()
      reads this
    {
      currentStep == 0 || currentStep < totalSteps
    }

    constructor (totalSteps: nat, hasOnComplete: bool)
      ensures this.totalSteps == totalSteps && this.hasOnComplete == hasOnComplete
      ensures currentStep == 0 && Valid()
    {
      this.totalSteps := totalSteps;
      this.hasOnComplete := hasOnComplete;
      currentStep := 0;
    }

    /** Whether the current step is the last one. */
    predicate OnLastStep()
      reads this
    {
      currentStep as int == totalSteps as int - 1
    }

    /** Advances one step; on the last step (or with no steps) completes and closes instead,
        keeping the index where it is. */
    method HandleNext() returns (calls: seq<Callback>)
      requires Valid()
      modifies this
      ensures Valid()
      ensures old(currentStep) as int < totalSteps as int - 1 ==>
        currentStep == old(currentStep) + 1 && calls == []
      ensures old(currentStep) as int >= totalSteps as int - 1 ==>
        currentStep == old(currentStep) &&
        calls == (if hasOnComplete then [OnComplete, OnClose] else [OnClose])
    {
      if currentStep as int < totalSteps as int - 1 {
        currentStep := currentStep + 1;
        calls := [];
      } else {
        calls := if hasOnComplete then [OnComplete, OnClose] else [OnClose];
      }
    }

    /** Goes back one step; does nothing on the first, so it moves exactly where Back is shown. */
    method HandleBack()
      requires Valid()
      modifies this
      ensures Valid()
      ensures old(ShowsBack()) <==> currentStep != old(currentStep)
      ensures old(currentStep) == 0 ==> currentStep == 0
      ensures old(currentStep) > 0 ==> currentStep == old(currentStep) - 1
    {
      if currentStep > 0 {
        currentStep := currentStep - 1;
      }
    }

    /** Cancel, or the dialog being dismissed: back to the first step, and the parent is told. */
    method HandleClose() returns (calls: seq<Callback>)
      modifies this
      ensures Valid()
      ensures currentStep == 0 && calls == [OnClose]
    {
      currentStep := 0;
      calls := [OnClose];
    }

    /** The primary button's label. */
    function PrimaryLabel(): (caption: string)
      reads this
      ensures caption == "Finish" || caption == "Next"
      ensures caption == "Finish" <==> OnLastStep()
    {
      if OnLastStep() then "Finish" else "Next"
    }

    /** Whether the Back button is rendered. */
    predicate ShowsBack()
      reads this
    {
      currentStep > 0
    }

    /** Finish is offered exactly where Next completes instead of advancing. */
    lemma ButtonsMatchHandlers()
      requires Valid()
      ensures PrimaryLabel() == "Finish" ==> currentStep as int >= totalSteps as int - 1
      ensures totalSteps > 0 && currentStep as int >= totalSteps as int - 1 ==> PrimaryLabel() == "Finish"
    {
    }
  }

  /** Walking a three-step dialog to the end: two moves, then completion on the third press,
      with the index left on the last step. */
  method WalkThrough() returns (calls: seq<Callback>, dialog: SteppedModal)
    ensures dialog.currentStep == 2 && calls == [OnComplete, OnClose]
  {
    dialog := new SteppedModal(3, true);
    calls := dialog.HandleNext();
    calls := dialog.HandleNext();
    assert dialog.PrimaryLabel() == "Finish";
    calls := dialog.HandleNext();
  }
}
