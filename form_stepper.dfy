// The step gate and the Back/Next navigation of the survey wizard
// (src/components/FormStepper.tsx).

module FormStepper {
  import opened JsString
  import opened SurveyStorage

  /** The personal fields that must be filled before leaving the first step.
      Income, education and the ZIP code are optional. */
  const RequiredFields: seq<PersonalField> :=
    [Age, Gender, Occupation, HomeAddress, HomeCity, HomeState]

  /** `value && value.trim() !== ''`: the value holds a non-whitespace
      character. */
  function Filled(value: string): (r: bool)
    ensures r <==> !IsBlank(value)
  {
    TrimEmptyIffBlank(value);
    value != "" && Trim(value) != ""
  }

  /** `fields.every(field => Filled(info[field]))` */
  function AllFilled(fields: seq<PersonalField>, info: PersonalInfo): (r: bool)
    ensures r <==> forall i :: 0 <= i < |fields| ==> Filled(GetField(info, fields[i]))
  {
    if fields == [] then true
    else Filled(GetField(info, fields[0])) && AllFilled(fields[1..], info)
  }

  /** The value the stepper's effect stores in `canProceed` for `step`:
      at the personal-information step, each of age, gender, occupation,
      home address, city and state must hold a non-whitespace character; at
      the location step the home coordinates must be set (the tagged
      locations play no part); the review step is always open; the
      completion step, like any other number, never is. */
  function CanProceed(step: int, info: PersonalInfo): (r: bool)
    ensures step == PersonalInfoStep ==> (r <==>
      !IsBlank(info.age) && !IsBlank(info.gender) && !IsBlank(info.occupation) &&
      !IsBlank(info.homeAddress) && !IsBlank(info.homeCity) && !IsBlank(info.homeState))
    ensures step == LocationInfoStep ==> (r <==> info.homeCoordinates.Some?)
    ensures step == ReviewStep ==> r
    ensures step != PersonalInfoStep && step != LocationInfoStep && step != ReviewStep ==> !r
  {
    if step == PersonalInfoStep then
      RequiredFieldsFilled(info);
      AllFilled(RequiredFields, info)
    else if step == LocationInfoStep then info.homeCoordinates.Some?
    else if step == ReviewStep then true
    else false
  }

  /** The required-field check spelt out field by field. */
  lemma RequiredFieldsFilled(info: PersonalInfo)
    ensures AllFilled(RequiredFields, info) <==>
      Filled(info.age) && Filled(info.gender) && Filled(info.occupation) &&
      Filled(info.homeAddress) && Filled(info.homeCity) && Filled(info.homeState)
  {
    var fs := RequiredFields;
    assert fs[0] == Age && fs[1] == Gender && fs[2] == Occupation;
    assert fs[3] == HomeAddress && fs[4] == HomeCity && fs[5] == HomeState;
    if AllFilled(fs, info) {
      assert Filled(GetField(info, fs[0])) && Filled(GetField(info, fs[1])) && Filled(GetField(info, fs[2]));
      assert Filled(GetField(info, fs[3])) && Filled(GetField(info, fs[4])) && Filled(GetField(info, fs[5]));
    } else {
      var i :| 0 <= i < |fs| && !Filled(GetField(info, fs[i]));
      assert i in {0, 1, 2, 3, 4, 5};
    }
  }

  /** The first-step gate reads only the six required fields: ZIP code,
      income, education and the home coordinates do not affect it. */
  lemma PersonalInfoGateReadsRequiredOnly(a: PersonalInfo, b: PersonalInfo)
    requires forall i :: 0 <= i < |RequiredFields| ==>
      GetField(a, RequiredFields[i]) == GetField(b, RequiredFields[i])
    ensures CanProceed(PersonalInfoStep, a) == CanProceed(PersonalInfoStep, b)
  {
  }

  /** Only the required fields matter: editing any other field leaves the
      first-step gate as it was. */
  lemma OptionalEditKeepsGate(info: PersonalInfo, f: PersonalField, v: string)
    requires f !in RequiredFields
    ensures CanProceed(PersonalInfoStep, SetField(info, f, v)) == CanProceed(PersonalInfoStep, info)
  {
    PersonalInfoGateReadsRequiredOnly(SetField(info, f, v), info);
  }

  /** A required field made blank, even with whitespace only, closes the
      first-step gate. */
  lemma BlankRequiredFieldCloses(info: PersonalInfo, f: PersonalField, v: string)
    requires f in RequiredFields && IsBlank(v)
    ensures !CanProceed(PersonalInfoStep, SetField(info, f, v))
  {
    var i :| 0 <= i < |RequiredFields| && RequiredFields[i] == f;
    assert !Filled(GetField(SetField(info, f, v), RequiredFields[i]));
  }

  /** goToNextStep: move forward one step when the gate is open and the
      current step is not the last child; otherwise stay. */
  function NextStep(step: int, canProceed: bool, childCount: int): (r: int)
    ensures r == step || r == step + 1
    ensures r == step + 1 <==> canProceed && step < childCount - 1
    ensures 0 <= step < childCount ==> 0 <= r < childCount
  {
    if canProceed && step < childCount - 1 then step + 1 else step
  }

  /** goToPreviousStep: move back one step unless already at the first;
      the gate is not consulted. */
  function PreviousStep(step: int): (r: int)
    ensures r == step - 1 <==> step > 0
    ensures step <= 0 ==> r == step
    ensures 0 <= step ==> 0 <= r <= step
  {
    if step > 0 then step - 1 else step
  }

  /** Back from the location step always reaches the personal-information
      step, whatever the answers; Back from the first step stays there. */
  lemma BackFromLocationInfo()
    ensures PreviousStep(LocationInfoStep) == PersonalInfoStep
    ensures PreviousStep(PersonalInfoStep) == PersonalInfoStep
  {
  }

  /** With the survey's four children, Next at the review step reaches the
      completion step for any answers: the stepper's own button, labelled
      "Submit" at that step, moves on without the record being submitted. */
  lemma NextFromReviewReachesCompletion(info: PersonalInfo)
    ensures NextStep(ReviewStep, CanProceed(ReviewStep, info), StepCount) == CompletionStep
  {
  }

  /** Next moves only from a step before the last whose gate is open, and
      keeps the step a survey step. */
  lemma NextIsGated(step: int, info: PersonalInfo)
    requires IsSurveyStep(step)
    ensures NextStep(step, CanProceed(step, info), StepCount) != step ==>
      step < CompletionStep && CanProceed(step, info)
    ensures IsSurveyStep(NextStep(step, CanProceed(step, info), StepCount))
  {
  }
}
