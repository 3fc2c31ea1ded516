// The location-editing logic of the map component: the type colour table,
// the draft of a new location and its append, removal by id, and the mocked
// search with its result selection (src/components/MapboxMap.tsx).

module MapboxMap {
  import opened JsString
  import opened SurveyStorage

  /** One row of the `locationTypes` table. */
  datatype LocationType = LocationType(value: string, labelText: string, color: string)

  const LocationTypes: seq<LocationType> := [
    LocationType("home", "집", "#4F46E5"),
    LocationType("work", "직장", "#10B981"),
    LocationType("shopping", "쇼핑", "#F59E0B"),
    LocationType("entertainment", "엔터테인먼트", "#EC4899"),
    LocationType("education", "교육", "#8B5CF6"),
    LocationType("restaurant", "식당", "#EF4444"),
    LocationType("outdoor", "야외", "#22C55E"),
    LocationType("other", "기타", "#6B7280")
  ]

  const DefaultColor: string := "#6B7280"

  /** `table.find(t => t.value === value)`: the first row with that value. */
  function FindType(table: seq<LocationType>, value: string): (r: Option<LocationType>)
    ensures r.None? <==> forall i :: 0 <= i < |table| ==> table[i].value != value
    ensures r.Some? ==> r.value.value == value
  {
    if table == [] then None
    else if table[0].value == value then Some(table[0])
    else FindType(table[1..], value)
  }

  /** The row find returns is the first one carrying the value. */
  lemma {:induction false} FindTypeFirst(table: seq<LocationType>, value: string, i: int)
    requires 0 <= i < |table| && table[i].value == value
    requires forall j :: 0 <= j < i ==> table[j].value != value
    ensures FindType(table, value) == Some(table[i])
  {
    if i > 0 {
      FindTypeFirst(table[1..], value, i - 1);
    }
  }

  /** In a table that lists each value once, find returns the row carrying
      the value. */
  lemma FindTypeUnique(table: seq<LocationType>, value: string)
    requires forall i, j :: 0 <= i < j < |table| ==> table[i].value != table[j].value
    ensures forall i :: 0 <= i < |table| && table[i].value == value ==> FindType(table, value) == Some(table[i])
  {
    forall i | 0 <= i < |table| && table[i].value == value
      ensures FindType(table, value) == Some(table[i])
    {
      FindTypeFirst(table, value, i);
    }
  }

  /** The table lists each type once. */
  lemma TypeValuesDistinct()
    ensures forall i, j :: 0 <= i < j < |LocationTypes| ==> LocationTypes[i].value != LocationTypes[j].value
  {
  }

  /** getColorForType: each listed type gets the colour of its own row, and
      any other string gets grey. */
  function ColorForType(t: string): (r: string)
    ensures forall i :: 0 <= i < |LocationTypes| && LocationTypes[i].value == t ==> r == LocationTypes[i].color
    ensures (forall i :: 0 <= i < |LocationTypes| ==> LocationTypes[i].value != t) ==> r == DefaultColor
    ensures r != ""
  {
    TypeValuesDistinct();
    FindTypeUnique(LocationTypes, t);
    match FindType(LocationTypes, t)
    case Some(row) => if row.color != "" then row.color else DefaultColor
    case None => DefaultColor
  }

  /** The colour of every listed type, and grey for any other string. */
  lemma ColorTable(t: string)
    ensures ColorForType(t) ==
      if t == "home" then "#4F46E5"
      else if t == "work" then "#10B981"
      else if t == "shopping" then "#F59E0B"
      else if t == "entertainment" then "#EC4899"
      else if t == "education" then "#8B5CF6"
      else if t == "restaurant" then "#EF4444"
      else if t == "outdoor" then "#22C55E"
      else DefaultColor
  {
    var table := LocationTypes;
    if t == "home" { assert table[0].value == t; }
    else if t == "work" { assert table[1].value == t; }
    else if t == "shopping" { assert table[2].value == t; }
    else if t == "entertainment" { assert table[3].value == t; }
    else if t == "education" { assert table[4].value == t; }
    else if t == "restaurant" { assert table[5].value == t; }
    else if t == "outdoor" { assert table[6].value == t; }
    else if t == "other" { assert table[7].value == t; }
    else { assert forall i :: 0 <= i < |table| ==> table[i].value != t; }
  }

  /** `locations.filter(loc => loc.id !== id)`: no entry with the id is left. */
  function RemoveById(ls: seq<Location>, id: string): (r: seq<Location>)
    ensures forall i :: 0 <= i < |r| ==> r[i].id != id
    ensures |r| <= |ls|
  {
    if ls == [] then []
    else (if ls[0].id != id then [ls[0]] else []) + RemoveById(ls[1..], id)
  }

  /** `a` can be obtained from `b` by deleting entries. */
  predicate IsSubsequence<T(==)>(a: seq<T>, b: seq<T>)
    decreases |b|
  {
    if a == [] then true
    else if b == [] then false
    else if a[0] == b[0] then IsSubsequence(a[1..], b[1..])
    else IsSubsequence(a, b[1..])
  }

  /** Filtering distributes over concatenation. */
  lemma {:induction false} RemoveByIdAppend(a: seq<Location>, b: seq<Location>, id: string)
    ensures RemoveById(a + b, id) == RemoveById(a, id) + RemoveById(b, id)
  {
    if a != [] {
      var head := if a[0].id != id then [a[0]] else [];
      assert (a + b)[0] == a[0] && (a + b)[1..] == a[1..] + b;
      RemoveByIdAppend(a[1..], b, id);
      assert RemoveById(a + b, id) == head + RemoveById(a[1..] + b, id);
      assert RemoveById(a, id) == head + RemoveById(a[1..], id);
      assert head + (RemoveById(a[1..], id) + RemoveById(b, id)) ==
             (head + RemoveById(a[1..], id)) + RemoveById(b, id);
    } else {
      assert a + b == b;
    }
  }

  /** The entries that stay keep their relative order. */
  lemma {:induction false} RemoveByIdKeepsOrder(ls: seq<Location>, id: string)
    ensures IsSubsequence(RemoveById(ls, id), ls)
  {
    if ls != [] {
      RemoveByIdKeepsOrder(ls[1..], id);
      var rest := RemoveById(ls[1..], id);
      if ls[0].id == id {
        assert RemoveById(ls, id) == rest;
        SubsequenceOfTail(rest, ls);
      } else {
        assert RemoveById(ls, id) == [ls[0]] + rest && ([ls[0]] + rest)[1..] == rest;
      }
    }
  }

  /** An extra entry in front of the longer sequence does no harm. */
  lemma {:induction false} SubsequenceOfTail<T>(a: seq<T>, b: seq<T>)
    requires b != [] && IsSubsequence(a, b[1..])
    ensures IsSubsequence(a, b)
    decreases |b|, 0
  {
    if a != [] && a[0] == b[0] {
      SubsequenceDropHead(a, b[1..]);
    }
  }

  /** Dropping the first entry of a subsequence keeps it a subsequence. */
  lemma {:induction false} SubsequenceDropHead<T>(a: seq<T>, c: seq<T>)
    requires a != [] && IsSubsequence(a, c)
    ensures IsSubsequence(a[1..], c)
    decreases |c|, 1
  {
    if a[0] == c[0] {
      SubsequenceOfTail(a[1..], c);
    } else {
      SubsequenceDropHead(a, c[1..]);
      SubsequenceOfTail(a[1..], c);
    }
  }

  /** Every entry without the id is kept as often as it occurred; every
      entry with the id is gone. */
  lemma {:induction false} RemoveByIdCounts(ls: seq<Location>, id: string, x: Location)
    ensures multiset(RemoveById(ls, id))[x] == if x.id == id then 0 else multiset(ls)[x]
  {
    if ls != [] {
      var head := if ls[0].id != id then [ls[0]] else [];
      var rest := RemoveById(ls[1..], id);
      RemoveByIdCounts(ls[1..], id, x);
      assert multiset(ls) == multiset([ls[0]]) + multiset(ls[1..]) by {
        assert ls == [ls[0]] + ls[1..];
      }
      assert multiset(RemoveById(ls, id)) == multiset(head) + multiset(rest);
    }
  }

  /** When no entry carries the id, removal changes nothing. */
  lemma {:induction false} RemoveAbsentId(ls: seq<Location>, id: string)
    requires forall i :: 0 <= i < |ls| ==> ls[i].id != id
    ensures RemoveById(ls, id) == ls
  {
    if ls != [] {
      RemoveAbsentId(ls[1..], id);
    }
  }

  /** The remove button in a marker's popup: it filters only when its
      `data-id` attribute is non-empty. */
  function RemoveViaPopup(ls: seq<Location>, id: string): (r: Option<seq<Location>>)
    ensures r.None? <==> id == ""
    ensures r.Some? ==> |r.value| <= |ls| && forall i :: 0 <= i < |r.value| ==> r.value[i].id != id
  {
    if id == "" then None else Some(RemoveById(ls, id))
  }

  /** The `newLocation` draft (a Partial<Location>): name, type and visit
      frequency. */
  datatype Draft = Draft(name: string, locationType: string, frequency: Option<string>)

  const InitialDraft: Draft := Draft("", "home", None)

  /** The location addNewLocation builds from the draft, an id and
      coordinates; none when the name or the type is empty. A name of spaces
      is accepted, since the check does not trim. */
  function NewLocation(draft: Draft, id: string, coordinates: LngLat): (r: Option<Location>)
    ensures r.None? <==> draft.name == "" || draft.locationType == ""
    ensures r.Some? ==> r.value.id == id && r.value.coordinates == coordinates
    ensures r.Some? ==> r.value.name == draft.name && r.value.locationType == draft.locationType &&
                        r.value.frequency == draft.frequency
  {
    if draft.name == "" || draft.locationType == "" then None
    else Some(Location(id, draft.name, draft.locationType, coordinates, draft.frequency))
  }

  /** Adding a location under an id no entry uses yet, then removing that
      id, gives back the original list. Ids come from the clock and are not
      unique in general, hence the requirement. */
  lemma RemoveUndoesAdd(ls: seq<Location>, draft: Draft, id: string, coordinates: LngLat)
    requires NewLocation(draft, id, coordinates).Some?
    requires forall i :: 0 <= i < |ls| ==> ls[i].id != id
    ensures RemoveById(ls + [NewLocation(draft, id, coordinates).value], id) == ls
  {
    var added := NewLocation(draft, id, coordinates).value;
    RemoveByIdAppend(ls, [added], id);
    RemoveAbsentId(ls, id);
  }

  /** One mocked geocoding result. */
  datatype SearchResult = SearchResult(id: string, placeName: string, center: LngLat)

  const ResultSeparator: string := " - "

  /** The three mocked results for a query; their centres come from
      Math.random and are taken as parameters. */
  function MockResults(query: string, c1: LngLat, c2: LngLat, c3: LngLat): (r: seq<SearchResult>)
    ensures |r| == 3
    ensures forall i :: 0 <= i < 3 ==>
      |r[i].placeName| > |query| + |ResultSeparator| &&
      r[i].placeName[..|query| + |ResultSeparator|] == query + ResultSeparator
  {
    [SearchResult("1", query + ResultSeparator + "결과 1", c1),
     SearchResult("2", query + ResultSeparator + "결과 2", c2),
     SearchResult("3", query + ResultSeparator + "결과 3", c3)]
  }

  /** `place_name.split(' - ')[0]`: the name a selected result gives the
      draft, the place name up to the first " - ", or all of it when there
      is none. */
  function ResultName(result: SearchResult): (r: string)
    ensures |r| <= |result.placeName| && r == result.placeName[..|r|]
    ensures forall i :: 0 <= i < |r| ==> !OccursAt(result.placeName, ResultSeparator, i)
    ensures r == result.placeName || OccursAt(result.placeName, ResultSeparator, |r|)
  {
    SplitHead(result.placeName, ResultSeparator)
  }

  /** The separator cannot start inside a text without '-' followed by it:
      its '-' would fall on a character of the text or on the separator's
      leading space. */
  lemma NoDashBeforeSeparator(head: string, i: int)
    requires forall k :: 0 <= k < |head| ==> head[k] != '-'
    requires 0 <= i < |head|
    ensures !OccursAt(head + ResultSeparator, ResultSeparator, i)
  {
    var s := head + ResultSeparator;
    assert s[i + 1] != '-' by {
      if i + 1 < |head| {
        assert s[i + 1] == head[i + 1];
      } else {
        assert s[i + 1] == ResultSeparator[0];
      }
    }
    if i + |ResultSeparator| <= |s| {
      assert s[i..i + |ResultSeparator|][1] == s[i + 1];
    }
  }

  /** Selecting any mocked result of a query that contains no '-' gives the
      query back as the draft name. */
  lemma SelectedNameIsQuery(query: string, c1: LngLat, c2: LngLat, c3: LngLat, k: int)
    requires forall i :: 0 <= i < |query| ==> query[i] != '-'
    requires 0 <= k < 3
    ensures ResultName(MockResults(query, c1, c2, c3)[k]) == query
  {
    var sep := ResultSeparator;
    forall i | 0 <= i < |query|
      ensures !OccursAt(query + sep, sep, i)
    {
      NoDashBeforeSeparator(query, i);
    }
    var tail := MockResults(query, c1, c2, c3)[k].placeName[|query| + |sep|..];
    assert MockResults(query, c1, c2, c3)[k].placeName == query + sep + tail;
    SplitHeadOfJoin(query, sep, tail);
  }

  /** A query that itself contains " - " loses everything from it on: the
      results of "Main St - Downtown" name the draft "Main St". */
  lemma SelectedNameTruncatesQuery(c1: LngLat, c2: LngLat, c3: LngLat)
    ensures ResultName(MockResults("Main St - Downtown", c1, c2, c3)[0]) == "Main St"
  {
    var head, sep, rest := "Main St", ResultSeparator, "Downtown";
    var tail := rest + sep + "결과 1";
    assert "Main St - Downtown" == head + sep + rest;
    assert MockResults(head + sep + rest, c1, c2, c3)[0].placeName == head + sep + tail;
    forall i | 0 <= i < |head|
      ensures !OccursAt(head + sep, sep, i)
    {
      NoDashBeforeSeparator(head, i);
    }
    SplitHeadOfJoin(head, sep, tail);
  }

  /** setHomeLocation: once the map has loaded, the mocked home position
      (Central Park) is handed to onHomeLocationChange; before that nothing
      happens. */
  function MockHomeLocation(mapLoaded: bool): (r: Option<LngLat>)
    ensures r.Some? <==> mapLoaded
    ensures r.Some? ==> r.value == LngLat(-73.9665, 40.7812)
  {
    if mapLoaded then Some(LngLat(-73.9665, 40.7812)) else None
  }

  /** The map component's editing state: the draft, whether the add form is
      open, the search box and its results. */
  class MapPanel {
    var draft: Draft
    var isAddingLocation: bool
    var searchQuery: string
    var searchResults: seq<SearchResult>

    constructor ()
      ensures draft == InitialDraft && !isAddingLocation
      ensures searchQuery == "" && searchResults == []
    {
      draft := InitialDraft;
      isAddingLocation := false;
      searchQuery := "";
      searchResults := [];
    }

    /** The "add location" / "cancel" toggle. */
    method ToggleAdding()
      modifies this
      ensures isAddingLocation == !old(isAddingLocation)
      ensures draft == old(draft) && searchQuery == old(searchQuery) && searchResults == old(searchResults)
    {
      isAddingLocation := !isAddingLocation;
    }

    /** The name input of the add form. */
    method SetDraftName(name: string)
      modifies this
      ensures draft == old(draft).(name := name)
      ensures isAddingLocation == old(isAddingLocation)
      ensures searchQuery == old(searchQuery) && searchResults == old(searchResults)
    {
      draft := draft.(name := name);
    }

    /** The type select of the add form. */
    method SetDraftType(t: string)
      modifies this
      ensures draft == old(draft).(locationType := t)
      ensures isAddingLocation == old(isAddingLocation)
      ensures searchQuery == old(searchQuery) && searchResults == old(searchResults)
    {
      draft := draft.(locationType := t);
    }

    /** The visit-frequency select of the add form. */
    method SetDraftFrequency(f: string)
      modifies this
      ensures draft == old(draft).(frequency := Some(f))
      ensures isAddingLocation == old(isAddingLocation)
      ensures searchQuery == old(searchQuery) && searchResults == old(searchResults)
    {
      draft := draft.(frequency := Some(f));
    }

    /** addNewLocation, given the current list, the id Date.now() yields and
        the coordinates picked near home. With an empty name or type nothing
        changes and no list is handed on; otherwise the returned list (passed
        to onChange) is the old one followed by the new entry, the draft is
        reset and the add form closes. */
    method AddNewLocation(locations: seq<Location>, id: string, coordinates: LngLat)
      returns (changed: Option<seq<Location>>)
      modifies this
      ensures changed.None? <==> old(draft).name == "" || old(draft).locationType == ""
      ensures changed.None? ==> draft == old(draft) && isAddingLocation == old(isAddingLocation)
      ensures changed.Some? ==>
        changed.value == locations + [Location(id, old(draft).name, old(draft).locationType, coordinates, old(draft).frequency)] &&
        draft == InitialDraft && !isAddingLocation
      ensures searchQuery == old(searchQuery) && searchResults == old(searchResults)
    {
      var location := NewLocation(draft, id, coordinates);
      if location.None? {
        return None;
      }
      changed := Some(locations + [location.value]);
      draft := InitialDraft;
      isAddingLocation := false;
    }

    /** The search box. */
    method SetSearchQuery(q: string)
      modifies this
      ensures searchQuery == q
      ensures draft == old(draft) && isAddingLocation == old(isAddingLocation) && searchResults == old(searchResults)
    {
      searchQuery := q;
    }

    /** searchLocation: a query that is blank after trimming is rejected and
        the results stay as they were; otherwise the three mocked results,
        centred at the given points, replace them. */
    method SearchLocation(c1: LngLat, c2: LngLat, c3: LngLat) returns (accepted: bool)
      modifies this
      ensures accepted <==> !IsBlank(searchQuery)
      ensures !accepted ==> searchResults == old(searchResults)
      ensures accepted ==> searchResults == MockResults(searchQuery, c1, c2, c3)
      ensures draft == old(draft) && isAddingLocation == old(isAddingLocation) && searchQuery == old(searchQuery)
    {
      TrimEmptyIffBlank(searchQuery);
      if Trim(searchQuery) == "" {
        return false;
      }
      accepted := true;
      searchResults := MockResults(searchQuery, c1, c2, c3);
    }

    /** selectSearchResult: the draft is named after the result; an open add
        form keeps its type and frequency, a closed one opens with a fresh
        draft of type "other"; the results are cleared. */
    method SelectSearchResult(result: SearchResult)
      modifies this
      ensures draft.name == ResultName(result)
      ensures old(isAddingLocation) ==>
        draft.locationType == old(draft).locationType && draft.frequency == old(draft).frequency
      ensures !old(isAddingLocation) ==> draft.locationType == "other" && draft.frequency == None
      ensures isAddingLocation && searchResults == []
      ensures searchQuery == old(searchQuery)
    {
      var name := ResultName(result);
      if isAddingLocation {
        draft := draft.(name := name);
      } else {
        isAddingLocation := true;
        draft := Draft(name, "other", None);
      }
      searchResults := [];
    }
  }
}
