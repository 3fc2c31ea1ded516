// The survey controller: its state, the record updates the step views call,
// the two storage effects, submission and reset (src/components/SurveyForm.tsx).

module SurveyForm {
  import opened SurveyStorage
  import opened FormStepper
  import opened JsString

  /** updatePersonalInfo's copy: text field `f` becomes `v`. */
  function WithPersonalField(d: SurveyData, f: PersonalField, v: string): (r: SurveyData)
    ensures GetField(r.personalInfo, f) == v
    ensures forall g :: g != f ==> GetField(r.personalInfo, g) == GetField(d.personalInfo, g)
    ensures r.personalInfo.homeCoordinates == d.personalInfo.homeCoordinates
    ensures r.locations == d.locations && r.completedAt == d.completedAt
  {
    d.(personalInfo := SetField(d.personalInfo, f, v))
  }

  /** updateHomeCoordinates's copy: only the home coordinates change. */
  function WithHomeCoordinates(d: SurveyData, c: LngLat): (r: SurveyData)
    ensures r.personalInfo.homeCoordinates == Some(c)
    ensures forall g :: GetField(r.personalInfo, g) == GetField(d.personalInfo, g)
    ensures r.locations == d.locations && r.completedAt == d.completedAt
  {
    d.(personalInfo := d.personalInfo.(homeCoordinates := Some(c)))
  }

  /** updateLocations's copy: only the location list changes. */
  function WithLocations(d: SurveyData, ls: seq<Location>): (r: SurveyData)
    ensures r.locations == ls
    ensures r.personalInfo == d.personalInfo && r.completedAt == d.completedAt
  {
    d.(locations := ls)
  }

  /** Writing a field back to the value it already holds gives the same record. */
  lemma WithPersonalFieldSameValue(d: SurveyData, f: PersonalField)
    ensures WithPersonalField(d, f, GetField(d.personalInfo, f)) == d
  {
    var r := WithPersonalField(d, f, GetField(d.personalInfo, f));
    PersonalInfoExtensionality(r.personalInfo, d.personalInfo);
  }

  /** Edits of two different fields commute. */
  lemma WithPersonalFieldCommutes(d: SurveyData, f: PersonalField, v: string, g: PersonalField, w: string)
    requires f != g
    ensures WithPersonalField(WithPersonalField(d, f, v), g, w) == WithPersonalField(WithPersonalField(d, g, w), f, v)
  {
    var a := WithPersonalField(WithPersonalField(d, f, v), g, w);
    var b := WithPersonalField(WithPersonalField(d, g, w), f, v);
    PersonalInfoExtensionality(a.personalInfo, b.personalInfo);
  }

  /** `!savedData.completedAt`: a record with no completion time (or an
      empty one, which is falsy) may be resumed. */
  function Resumable(d: SurveyData): (r: bool)
    ensures !r <==> d.completedAt.Some? && d.completedAt.value != ""
  {
    d.completedAt == None || d.completedAt == Some("")
  }

  /** The load effect's choice between the saved record and the current one. */
  function AdoptSaved(current: SurveyData, saved: SurveyData): (r: SurveyData)
    ensures r == saved <==> Resumable(saved) || saved == current
    ensures r == current || r == saved
  {
    if Resumable(saved) then saved else current
  }

  /** A record stamped at a non-empty time is never resumed. */
  lemma StampedIsNotResumed(current: SurveyData, d: SurveyData, now: string)
    requires now != ""
    ensures AdoptSaved(current, Stamp(d, now)) == current
  {
  }

  /** The save effect: write the record unless a submission is running. */
  function PersistOnChange(slots: Slots, data: SurveyData, isSubmitting: bool): (r: Slots)
    ensures isSubmitting ==> r == slots
    ensures !isSubmitting ==> LoadFrom(r) == Loaded(data)
    ensures forall k :: k in slots && k != SurveyStorageKey ==> k in r && r[k] == slots[k]
  {
    if isSubmitting then slots else SaveTo(slots, data)
  }

  /** handleSubmit's step change: a result with `success` moves to the
      completion step; a failure result or a thrown error leaves the step. */
  datatype SubmitOutcome = Resolved(result: ServerResult) | Threw

  function StepAfterSubmit(step: int, outcome: SubmitOutcome): (r: int)
    ensures outcome.Resolved? && outcome.result.success ==> r == CompletionStep
    ensures !(outcome.Resolved? && outcome.result.success) ==> r == step
  {
    match outcome
    case Resolved(result) => if result.success then CompletionStep else step
    case Threw => step
  }

  /** The simulated server never fails, so a submission always completes. */
  lemma SubmissionAlwaysCompletes(step: int)
    ensures StepAfterSubmit(step, Resolved(ServerResult(true, SubmitMessage))) == CompletionStep
  {
  }

  /** The slots after a submission as written: saveSurveyToServer stores the
      stamped copy of `submitted`, then the save effect, re-run because
      `isSubmitting` went back to false, stores `current` over it. */
  function SlotsAfterSubmit(slots: Slots, submitted: SurveyData, current: SurveyData, now: string): (r: Slots)
    ensures LoadFrom(r) == Loaded(current)
    ensures forall k :: k in slots && k != SurveyStorageKey ==> k in r && r[k] == slots[k]
  {
    PersistOnChange(SaveTo(slots, Stamp(submitted, now)), current, false)
  }

  /** As written, the stamped record does not survive the submission: the
      slot is left holding the unstamped answers, and the next visit resumes
      them as an unfinished survey. */
  lemma SubmittedStampIsOverwritten(slots: Slots, d: SurveyData, now: string)
    requires d.completedAt == None
    ensures LoadFrom(SlotsAfterSubmit(slots, d, d, now)) == Loaded(d)
    ensures LoadFrom(SlotsAfterSubmit(slots, d, d, now)) != Loaded(Stamp(d, now))
    ensures AdoptSaved(EmptySurveyData(), d) == d
  {
  }

  /** A save effect with a guard that keeps the completion stamp: nothing is
      written while submitting or once the survey is complete. */
  function PersistOnChangeGuarded(slots: Slots, data: SurveyData, isSubmitting: bool, step: int): (r: Slots)
    ensures isSubmitting || step == CompletionStep ==> r == slots
    ensures !isSubmitting && step != CompletionStep ==> LoadFrom(r) == Loaded(data)
  {
    if isSubmitting || step == CompletionStep then slots else SaveTo(slots, data)
  }

  /** The slots after a successful submission with the guarded effect. */
  function SlotsAfterSubmitGuarded(slots: Slots, submitted: SurveyData, current: SurveyData, now: string): Slots {
    PersistOnChangeGuarded(SaveTo(slots, Stamp(submitted, now)), current, false,
                           StepAfterSubmit(ReviewStep, Resolved(ServerResult(true, SubmitMessage))))
  }

  /** With the guard, the stamped record is what storage holds after the
      submission, whatever the user changed meanwhile, and the next visit
      starts from the empty record. */
  lemma GuardedSubmitKeepsStamp(slots: Slots, submitted: SurveyData, current: SurveyData, now: string)
    requires now != ""
    ensures LoadFrom(SlotsAfterSubmitGuarded(slots, submitted, current, now)) == Loaded(Stamp(submitted, now))
    ensures AdoptSaved(EmptySurveyData(), Stamp(submitted, now)) == EmptySurveyData()
  {
  }

  /** The SurveyForm component's state. `inFlight` is the record handed to
      the outstanding saveSurveyToServer call, if one is running. */
  class SurveyForm {
    var currentStep: int
    var surveyData: SurveyData
    var isSubmitting: bool
    var hasAcceptedTerms: bool
    var inFlight: Option<SurveyData>
    const storage: LocalStorage

    ghost predicate Valid()
      reads this
    {
      IsSurveyStep(currentStep) && (isSubmitting <==> inFlight.Some?)
    }

    /** The initial state, before any effect has run. */
    constructor (storage: LocalStorage)
      ensures Valid() && this.storage == storage
      ensures currentStep == PersonalInfoStep && surveyData == EmptySurveyData()
      ensures !isSubmitting && !hasAcceptedTerms && inFlight == None
    {
      currentStep := PersonalInfoStep;
      surveyData := EmptySurveyData();
      isSubmitting := false;
      hasAcceptedTerms := false;
      inFlight := None;
      this.storage := storage;
    }

    /** The save effect, run after `surveyData` or `isSubmitting` changed. */
    method SaveEffect()
      modifies storage
      ensures storage.slots == PersistOnChange(old(storage.slots), surveyData, isSubmitting)
    {
      if !isSubmitting {
        storage.Save(surveyData);
      }
    }

    /** The effects of the first render: the load effect reads storage and
        adopts a record that is not completed; the save effect then writes
        the current record (first the initial one, and again after the
        adopted one replaced it). When JSON.parse throws, the load effect
        fails and nothing is changed. */
    method Mount() returns (failed: bool)
      requires Valid() && !isSubmitting
      modifies this, storage
      ensures Valid()
      ensures currentStep == old(currentStep) && isSubmitting == old(isSubmitting)
      ensures hasAcceptedTerms == old(hasAcceptedTerms) && inFlight == old(inFlight)
      ensures failed <==> LoadFrom(old(storage.slots)).LoadFailed?
      ensures failed ==> surveyData == old(surveyData) && storage.slots == old(storage.slots)
      ensures !failed ==>
        surveyData == AdoptSaved(old(surveyData), LoadFrom(old(storage.slots)).data) &&
        storage.slots == SaveTo(old(storage.slots), surveyData)
    {
      var saved := storage.Load();
      if saved.LoadFailed? {
        return true;
      }
      failed := false;
      SaveEffect();
      if Resumable(saved.data) {
        surveyData := saved.data;
        SaveEffect();
      }
    }

    /** updatePersonalInfo, followed by the save effect. */
    method UpdatePersonalInfo(f: PersonalField, v: string)
      requires Valid()
      modifies this, storage
      ensures Valid()
      ensures surveyData == WithPersonalField(old(surveyData), f, v)
      ensures currentStep == old(currentStep) && isSubmitting == old(isSubmitting)
      ensures hasAcceptedTerms == old(hasAcceptedTerms) && inFlight == old(inFlight)
      ensures storage.slots == PersistOnChange(old(storage.slots), surveyData, isSubmitting)
    {
      surveyData := WithPersonalField(surveyData, f, v);
      SaveEffect();
    }

    /** updateHomeCoordinates, followed by the save effect. */
    method UpdateHomeCoordinates(c: LngLat)
      requires Valid()
      modifies this, storage
      ensures Valid()
      ensures surveyData == WithHomeCoordinates(old(surveyData), c)
      ensures currentStep == old(currentStep) && isSubmitting == old(isSubmitting)
      ensures hasAcceptedTerms == old(hasAcceptedTerms) && inFlight == old(inFlight)
      ensures storage.slots == PersistOnChange(old(storage.slots), surveyData, isSubmitting)
    {
      surveyData := WithHomeCoordinates(surveyData, c);
      SaveEffect();
    }

    /** updateLocations, followed by the save effect. */
    method UpdateLocations(ls: seq<Location>)
      requires Valid()
      modifies this, storage
      ensures Valid()
      ensures surveyData == WithLocations(old(surveyData), ls)
      ensures currentStep == old(currentStep) && isSubmitting == old(isSubmitting)
      ensures hasAcceptedTerms == old(hasAcceptedTerms) && inFlight == old(inFlight)
      ensures storage.slots == PersistOnChange(old(storage.slots), surveyData, isSubmitting)
    {
      surveyData := WithLocations(surveyData, ls);
      SaveEffect();
    }

    /** The stepper's Next button. */
    method GoToNextStep()
      requires Valid()
      modifies this
      ensures Valid()
      ensures currentStep == NextStep(old(currentStep), CanProceed(old(currentStep), surveyData.personalInfo), StepCount)
      ensures surveyData == old(surveyData) && isSubmitting == old(isSubmitting)
      ensures hasAcceptedTerms == old(hasAcceptedTerms) && inFlight == old(inFlight)
    {
      currentStep := NextStep(currentStep, CanProceed(currentStep, surveyData.personalInfo), StepCount);
    }

    /** The stepper's Back button. */
    method GoToPreviousStep()
      requires Valid()
      modifies this
      ensures Valid()
      ensures currentStep == PreviousStep(old(currentStep))
      ensures surveyData == old(surveyData) && isSubmitting == old(isSubmitting)
      ensures hasAcceptedTerms == old(hasAcceptedTerms) && inFlight == old(inFlight)
    {
      currentStep := PreviousStep(currentStep);
    }

    /** The terms checkbox. */
    method SetAcceptedTerms(checked: bool)
      requires Valid()
      modifies this
      ensures Valid() && hasAcceptedTerms == checked
      ensures currentStep == old(currentStep) && surveyData == old(surveyData)
      ensures isSubmitting == old(isSubmitting) && inFlight == old(inFlight)
    {
      hasAcceptedTerms := checked;
    }

    /** A click on "Submit Survey". The terms checkbox and the button are
        part of the review step only, the one child the stepper shows there.
        The button is disabled while submitting or before the terms are
        accepted; otherwise handleSubmit sets `isSubmitting` and starts the
        server call with the current record. The save effect then re-runs
        but writes nothing while submitting. */
    method SubmitClicked() returns (started: bool)
      requires Valid() && currentStep == ReviewStep
      modifies this
      ensures Valid()
      ensures started <==> old(hasAcceptedTerms) && !old(isSubmitting)
      ensures started ==> isSubmitting && inFlight == Some(surveyData)
      ensures !started ==> isSubmitting == old(isSubmitting) && inFlight == old(inFlight)
      ensures currentStep == old(currentStep) && surveyData == old(surveyData)
      ensures hasAcceptedTerms == old(hasAcceptedTerms)
    {
      started := hasAcceptedTerms && !isSubmitting;
      if started {
        isSubmitting := true;
        inFlight := Some(surveyData);
      }
    }

    /** The server call started by SubmitClicked settles. When it resolves
        at time `now`, the stamped record has been saved and the step moves
        by StepAfterSubmit; when it throws (`threw`: storage refused the
        write, so nothing was saved), the step stays. Either way `finally`
        sets `isSubmitting` back to false, which re-runs the save effect on
        the current record. */
    method ResolveSubmit(now: string, threw: bool)
      requires Valid() && isSubmitting
      modifies this, storage
      ensures Valid() && !isSubmitting && inFlight == None
      ensures surveyData == old(surveyData) && hasAcceptedTerms == old(hasAcceptedTerms)
      ensures !threw ==> currentStep == CompletionStep
      ensures !threw ==> storage.slots == SlotsAfterSubmit(old(storage.slots), old(inFlight).value, surveyData, now)
      ensures threw ==> currentStep == old(currentStep)
      ensures threw ==> storage.slots == PersistOnChange(old(storage.slots), surveyData, false)
    {
      var outcome: SubmitOutcome;
      if threw {
        outcome := Threw;
      } else {
        var result := storage.SaveSurveyToServer(inFlight.value, now);
        outcome := Resolved(result);
      }
      currentStep := StepAfterSubmit(currentStep, outcome);
      isSubmitting := false;
      inFlight := None;
      SaveEffect();
    }

    /** "Return Home" on the completion step: start over with the empty
        record at the first step, terms not accepted; the save effect then
        writes the empty record. */
    method StartNewSurvey()
      requires Valid()
      modifies this, storage
      ensures Valid()
      ensures surveyData == EmptySurveyData() && currentStep == PersonalInfoStep && !hasAcceptedTerms
      ensures isSubmitting == old(isSubmitting) && inFlight == old(inFlight)
      ensures storage.slots == PersistOnChange(old(storage.slots), EmptySurveyData(), isSubmitting)
    {
      surveyData := EmptySurveyData();
      currentStep := PersonalInfoStep;
      hasAcceptedTerms := false;
      SaveEffect();
    }
  }

  /** The first visit on a storage with no saved survey: the six required
      fields are answered with a non-blank `v`, the home position is set,
      and Next is pressed twice; the form is then at the review step with an
      unfinished record. */
  method FillAndReachReview(storage: LocalStorage, v: string, home: LngLat) returns (form: SurveyForm)
    requires SurveyStorageKey !in storage.slots && !IsBlank(v)
    modifies storage
    ensures form.storage == storage && form.Valid()
    ensures form.currentStep == ReviewStep && !form.isSubmitting
    ensures form.surveyData.completedAt == None
    ensures form.surveyData.personalInfo.age == v && form.surveyData.personalInfo.homeCoordinates == Some(home)
  {
    form := new SurveyForm(storage);
    var failed := form.Mount();
    form.UpdatePersonalInfo(Age, v);
    form.UpdatePersonalInfo(Gender, v);
    form.UpdatePersonalInfo(Occupation, v);
    form.UpdatePersonalInfo(HomeAddress, v);
    form.UpdatePersonalInfo(HomeCity, v);
    form.UpdatePersonalInfo(HomeState, v);
    form.UpdateHomeCoordinates(home);
    form.GoToNextStep();
    form.GoToNextStep();
  }

  /** A form at the review step with an unfinished record: the terms are
      accepted, the survey is submitted and the submission resolves; a
      second visit on the same storage then resumes the submitted answers,
      unstamped, at the first step instead of starting from the empty
      record. */
  method SubmitThenReopen(form: SurveyForm, now: string) returns (second: SurveyForm)
    requires form.Valid() && form.currentStep == ReviewStep && !form.isSubmitting
    requires form.surveyData.completedAt == None
    modifies form, form.storage
    ensures form.currentStep == CompletionStep && form.surveyData == old(form.surveyData)
    ensures second.storage == form.storage && second.currentStep == PersonalInfoStep
    ensures second.surveyData == form.surveyData && second.surveyData.completedAt == None
  {
    form.SetAcceptedTerms(true);
    var started := form.SubmitClicked();
    form.ResolveSubmit(now, false);
    second := new SurveyForm(form.storage);
    var failed := second.Mount();
  }

  /** The whole run on a fresh storage: answer the required fields, set home,
      Next twice, accept the terms and submit; the next visit resumes the
      submitted answers at the first step as an unfinished survey. */
  method SubmittedSurveyIsResumed(v: string, home: LngLat, now: string) returns (second: SurveyForm)
    requires !IsBlank(v)
    ensures second.currentStep == PersonalInfoStep
    ensures second.surveyData.completedAt == None
    ensures second.surveyData.personalInfo.age == v
    ensures second.surveyData.personalInfo.homeCoordinates == Some(home)
  {
    var storage := new LocalStorage(map[]);
    var form := FillAndReachReview(storage, v, home);
    second := SubmitThenReopen(form, now);
  }
}
