/// The three-step campaign wizard: campaign setup, lead upload and the
/// message sequence. The wizard holds the current step and the campaign
/// data that the step forms edit and that completion sends to the campaign
/// creation route.
module CampaignWizard {
  import opened Js
  import opened Schema

  /** The wizard's campaign data. Numbers come from `Number.parseInt` on the
      forms and may be `NaN`. */
  datatype CampaignData = CampaignData(
    name: string,
    twilioPhoneNumber: string,
    batchSize: Num,
    dripSize: Num,
    dripIntervalDays: Num,
    messageIntervals: Option<seq<Num>>,
    leads: seq<Lead>,
    messages: seq<string>)

  /** The step form shown. */
  datatype StepView = SetupForm | LeadsForm | SequenceForm

  /** The forward button: the next step, or campaign creation on the last step. */
  datatype Forward = NextStep | CreateCampaign

  predicate ValidStep(step: int) {
    1 <= step <= 3
  }

  /** The form rendered at a step: form k at step k, none elsewhere. */
  function ViewAt(step: int): (v: Option<StepView>)
    ensures v.Some? <==> ValidStep(step)
    ensures v == Some(SetupForm) <==> step == 1
    ensures v == Some(LeadsForm) <==> step == 2
    ensures v == Some(SequenceForm) <==> step == 3
  {
    if step == 1 then Some(SetupForm)
    else if step == 2 then Some(LeadsForm)
    else if step == 3 then Some(SequenceForm)
    else None
  }

  /** The forward button of a step. */
  function ForwardAt(step: int): Forward {
    if step < 3 then NextStep else CreateCampaign
  }

  /** Within the wizard, only the last step offers campaign creation. */
  lemma OnlyLastStepCompletes(step: int)
    requires ValidStep(step)
    ensures ForwardAt(step) == CreateCampaign <==> step == 3
    ensures ViewAt(step) == Some(SequenceForm) <==> ForwardAt(step) == CreateCampaign
  {
  }

  /** `handleNext`: forward one step unless already on the last. */
  function Next(step: int): int {
    if step < 3 then step + 1 else step
  }

  /** `handleBack`: back one step unless already on the first. */
  function Back(step: int): int {
    if step > 1 then step - 1 else step
  }

  /** A press of the back or the next button. */
  datatype Press = BackPress | NextPress

  /** The step after a series of presses. */
  function Navigate(step: int, presses: seq<Press>): int
    decreases |presses|
  {
    if presses == [] then step
    else Navigate(if presses[0] == BackPress then Back(step) else Next(step), presses[1..])
  }

  /** Whatever the buttons pressed, a wizard started on a valid step stays
      within steps 1 to 3. */
  lemma {:induction false} NavigationStaysInRange(step: int, presses: seq<Press>)
    requires ValidStep(step)
    ensures ValidStep(Navigate(step, presses))
    decreases |presses|
  {
    if presses != [] {
      NavigationStaysInRange(if presses[0] == BackPress then Back(step) else Next(step), presses[1..]);
    }
  }

  /** From the first step, `k` presses of next reach step `1 + k`, and stop at 3. */
  lemma {:induction false} NextPressesClamp(k: nat)
    ensures Navigate(1, seq(k, i => NextPress)) == if k < 2 then 1 + k else 3
  {
    var presses := seq(k, i => NextPress);
    if k >= 1 {
      assert presses[1..] == seq(k - 1, i => NextPress);
      NextPressesFromLast(k - 1);
      if k == 1 {
        assert Navigate(2, []) == 2;
      } else {
        assert presses[1..][1..] == seq(k - 2, i => NextPress);
      }
    }
  }

  /** Next has no effect on the last step. */
  lemma {:induction false} NextPressesFromLast(k: nat)
    ensures Navigate(3, seq(k, i => NextPress)) == 3
  {
    if k >= 1 {
      assert seq(k, i => NextPress)[1..] == seq(k - 1, i => NextPress);
      NextPressesFromLast(k - 1);
    }
  }

  /** Back undoes next wherever next moved, and next undoes back wherever
      back moved. */
  lemma BackUndoesNext(step: int)
    requires ValidStep(step)
    ensures step < 3 ==> Back(Next(step)) == step
    ensures step > 1 ==> Next(Back(step)) == step
  {
  }

  /** The data a new wizard starts with: no name, the account's number or
      the empty string, 50 per batch, 100 per drip every 3 days, intervals
      of 2, 5 and 30 days, no leads and three empty messages. */
  function InitialData(accountPhone: Option<string>): CampaignData {
    CampaignData("", Or(accountPhone, ""), Int(50), Int(100), Int(3), Some([Int(2), Int(5), Int(30)]), [], ["", "", ""])
  }

  class Wizard {
    var currentStep: int
    var data: CampaignData

    constructor(accountPhone: Option<string>)
      ensures currentStep == 1 && ValidStep(currentStep)
      ensures data == InitialData(accountPhone)
      ensures |data.messages| == 3 && data.leads == []
    {
      currentStep := 1;
      data := InitialData(accountPhone);
    }

    method HandleNext()
      modifies this
      ensures currentStep == Next(old(currentStep)) && data == old(data)
      ensures ValidStep(old(currentStep)) ==> ValidStep(currentStep)
    {
      if currentStep < 3 {
        currentStep := currentStep + 1;
      }
    }

    method HandleBack()
      modifies this
      ensures currentStep == Back(old(currentStep)) && data == old(data)
      ensures ValidStep(old(currentStep)) ==> ValidStep(currentStep)
    {
      if currentStep > 1 {
        currentStep := currentStep - 1;
      }
    }

    /** `setCampaignData`, as each step form calls it. */
    method SetData(d: CampaignData)
      modifies this
      ensures data == d && currentStep == old(currentStep)
    {
      data := d;
    }
  }
}
