// The survey record, the step numbering, and the browser storage slot that
// holds the record between visits (src/utils/surveyStorage.ts).

module SurveyStorage {

  /** A value that an optional (`?`) TypeScript field may lack. */
  datatype Option<T> = None | Some(value: T)

  /** `[longitude, latitude]`; the numbers are only stored and compared. */
  datatype LngLat = LngLat(longitude: real, latitude: real)

  datatype PersonalInfo = PersonalInfo(
    age: string,
    gender: string,
    occupation: string,
    income: string,
    education: string,
    homeAddress: string,
    homeCity: string,
    homeState: string,
    homeZip: string,
    homeCoordinates: Option<LngLat>)

  /** A tagged place; `locationType` is the TypeScript field `type`. */
  datatype Location = Location(
    id: string,
    name: string,
    locationType: string,
    coordinates: LngLat,
    frequency: Option<string>)

  datatype SurveyData = SurveyData(
    personalInfo: PersonalInfo,
    locations: seq<Location>,
    completedAt: Option<string>)

  /** The text-valued keys of PersonalInfo, the fields a form control edits. */
  datatype PersonalField =
    | Age | Gender | Occupation | Income | Education
    | HomeAddress | HomeCity | HomeState | HomeZip

  function GetField(info: PersonalInfo, f: PersonalField): string {
    match f
    case Age => info.age
    case Gender => info.gender
    case Occupation => info.occupation
    case Income => info.income
    case Education => info.education
    case HomeAddress => info.homeAddress
    case HomeCity => info.homeCity
    case HomeState => info.homeState
    case HomeZip => info.homeZip
  }

  /** `{ ...info, [f]: v }`: field `f` becomes `v`, nothing else moves. */
  function SetField(info: PersonalInfo, f: PersonalField, v: string): (r: PersonalInfo)
    ensures GetField(r, f) == v
    ensures forall g :: g != f ==> GetField(r, g) == GetField(info, g)
    ensures r.homeCoordinates == info.homeCoordinates
  {
    match f
    case Age => info.(age := v)
    case Gender => info.(gender := v)
    case Occupation => info.(occupation := v)
    case Income => info.(income := v)
    case Education => info.(education := v)
    case HomeAddress => info.(homeAddress := v)
    case HomeCity => info.(homeCity := v)
    case HomeState => info.(homeState := v)
    case HomeZip => info.(homeZip := v)
  }

  /** Two PersonalInfo values with the same text fields and the same home
      coordinates are the same value. */
  lemma PersonalInfoExtensionality(a: PersonalInfo, b: PersonalInfo)
    requires forall f :: GetField(a, f) == GetField(b, f)
    requires a.homeCoordinates == b.homeCoordinates
    ensures a == b
  {
    assert GetField(a, Age) == GetField(b, Age);
    assert GetField(a, Gender) == GetField(b, Gender);
    assert GetField(a, Occupation) == GetField(b, Occupation);
    assert GetField(a, Income) == GetField(b, Income);
    assert GetField(a, Education) == GetField(b, Education);
    assert GetField(a, HomeAddress) == GetField(b, HomeAddress);
    assert GetField(a, HomeCity) == GetField(b, HomeCity);
    assert GetField(a, HomeState) == GetField(b, HomeState);
    assert GetField(a, HomeZip) == GetField(b, HomeZip);
  }

  // The SurveyStep enum: its members are the numbers 0 to 3.
  const PersonalInfoStep: int := 0
  const LocationInfoStep: int := 1
  const ReviewStep: int := 2
  const CompletionStep: int := 3

  /** The number of steps, one form child per step. */
  const StepCount: int := 4

  predicate IsSurveyStep(step: int) {
    PersonalInfoStep <= step <= CompletionStep
  }

  /** getEmptySurveyData */
  function EmptySurveyData(): (r: SurveyData)
    ensures forall f :: GetField(r.personalInfo, f) == ""
    ensures r.personalInfo.homeCoordinates == None
    ensures r.locations == [] && r.completedAt == None
  {
    SurveyData(PersonalInfo("", "", "", "", "", "", "", "", "", None), [], None)
  }

  /** The record stamped by a submission at time `now`. */
  function Stamp(d: SurveyData, now: string): (r: SurveyData)
    ensures r.completedAt == Some(now)
    ensures r.personalInfo == d.personalInfo && r.locations == d.locations
  {
    d.(completedAt := Some(now))
  }

  /** The key the survey record is stored under. */
  const SurveyStorageKey: string := "lifestyle-survey-data"

  /** What a storage slot holds. JSON encoding is taken as the identity, so a
      slot written by saveSurveyData holds `Json(d)`; `Text(raw)` is any other
      string (written by other code or corrupted), which JSON.parse either
      rejects or turns into something that is not a survey record. */
  datatype StoredValue = Json(data: SurveyData) | Text(raw: string)

  type Slots = map<string, StoredValue>

  /** Why loading failed: JSON.parse threw on the stored text. */
  datatype LoadError = ParseError(raw: string)

  datatype LoadResult = Loaded(data: SurveyData) | LoadFailed(error: LoadError)

  /** saveSurveyData: overwrite the survey key, keep every other key. */
  function SaveTo(slots: Slots, d: SurveyData): (r: Slots)
    ensures r.Keys == slots.Keys + {SurveyStorageKey}
    ensures r[SurveyStorageKey] == Json(d)
    ensures forall k :: k in slots && k != SurveyStorageKey ==> r[k] == slots[k]
  {
    slots[SurveyStorageKey := Json(d)]
  }

  /** clearSurveyData: remove the survey key, keep every other key. */
  function ClearFrom(slots: Slots): (r: Slots)
    ensures r.Keys == slots.Keys - {SurveyStorageKey}
    ensures forall k :: k in r ==> r[k] == slots[k]
  {
    slots - {SurveyStorageKey}
  }

  /** loadSurveyData: a missing slot, or an empty string (falsy), gives the
      empty record; a stored record is returned as it is; any other text is
      handed to JSON.parse unguarded, which fails. */
  function LoadFrom(slots: Slots): (r: LoadResult)
    ensures SurveyStorageKey !in slots ==> r == Loaded(EmptySurveyData())
    ensures r.LoadFailed? <==>
      SurveyStorageKey in slots && slots[SurveyStorageKey].Text? && slots[SurveyStorageKey].raw != ""
  {
    if SurveyStorageKey !in slots then Loaded(EmptySurveyData())
    else match slots[SurveyStorageKey]
      case Json(d) => Loaded(d)
      case Text(raw) => if raw == "" then Loaded(EmptySurveyData()) else LoadFailed(ParseError(raw))
  }

  /** Loading after saving `d` gives `d` back, whatever the slots held. */
  lemma LoadAfterSave(slots: Slots, d: SurveyData)
    ensures LoadFrom(SaveTo(slots, d)) == Loaded(d)
  {
  }

  /** Loading after clearing gives the empty record. */
  lemma LoadAfterClear(slots: Slots)
    ensures LoadFrom(ClearFrom(slots)) == Loaded(EmptySurveyData())
  {
  }

  /** A second save replaces the first: only the last record written survives. */
  lemma SaveOverwrites(slots: Slots, d1: SurveyData, d2: SurveyData)
    ensures SaveTo(SaveTo(slots, d1), d2) == SaveTo(slots, d2)
  {
  }

  /** The response of the simulated server call. */
  datatype ServerResult = ServerResult(success: bool, message: string)

  const SubmitMessage: string := "Survey data successfully saved"

  /** The browser's localStorage, one string-keyed slot per key. */
  class LocalStorage {
    var slots: Slots

    constructor (initial: Slots)
      ensures slots == initial
    {
      slots := initial;
    }

    /** saveSurveyData */
    method Save(d: SurveyData)
      modifies this
      ensures slots == SaveTo(old(slots), d)
    {
      slots := SaveTo(slots, d);
    }

    /** loadSurveyData */
    method Load() returns (r: LoadResult)
      ensures r == LoadFrom(slots)
    {
      r := LoadFrom(slots);
    }

    /** clearSurveyData */
    method Clear()
      modifies this
      ensures slots == ClearFrom(old(slots))
    {
      slots := ClearFrom(slots);
    }

    /** saveSurveyToServer: after the simulated delay, stamp the record with
        the current time `now`, save it, and report success. */
    method SaveSurveyToServer(d: SurveyData, now: string) returns (r: ServerResult)
      modifies this
      ensures r == ServerResult(true, SubmitMessage)
      ensures slots == SaveTo(old(slots), Stamp(d, now))
      ensures LoadFrom(slots) == Loaded(Stamp(d, now))
    {
      Save(Stamp(d, now));
      r := ServerResult(true, SubmitMessage);
    }
  }
}
