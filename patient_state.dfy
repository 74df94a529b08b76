/**
 * The patient store: the `getPatient` and `searchPatient` request helpers
 * with their fallbacks, and the `PatientState` store whose per-id maps
 * record loading, errors and results.
 */
module PatientState {
  import opened Common
  import opened Fhir
  import opened PatientTransform
  import opened PatientFixture

  // ================================================================ getPatient

  /**
   * `getPatient`: the transform of a 200 response, and the transform of the
   * fixture patient whenever the request fails, the status is not 200 or the
   * transform throws. It never fails.
   */
  function GetPatient(response: Response<Option<Person>>): (r: PatientView)
    ensures ExpectStatus(response, 200).Ok? && TransformPatient(response.data).Ok? ==>
      TransformPatient(response.data) == Ok(r)
    ensures !(ExpectStatus(response, 200).Ok? && TransformPatient(response.data).Ok?) ==>
      TransformPatient(Some(DummyPatient)) == Ok(r)
  {
    TransformDummyPatient();
    match ExpectStatus(response, 200)
    case Err(_) => TransformPatient(Some(DummyPatient)).value
    case Ok(data) =>
      match TransformPatient(data)
      case Ok(view) => view
      case Err(_) => TransformPatient(Some(DummyPatient)).value
  }

  // ================================================================ search

  /**
   * The `searchPatient` helper: null for an empty id or birthdate, without a
   * request; otherwise the transform of a 200 response, or of the fixture
   * search result when the request fails, the status is not 200 or the
   * response holds an `issue` or an `error`.
   */
  function SearchPatientRequest(id: string, birthdate: string, response: Response<Option<SearchBundle>>): (r: Option<SearchResult>)
    ensures r.None? <==> id == "" || birthdate == ""
    ensures (&& r.Some? && ExpectStatus(response, 200).Ok?
             && !(response.data.Some? && (response.data.value.issue || response.data.value.error)))
            ==> r == Some(TransformPatientSearch(response.data))
    ensures (&& r.Some?
             && (|| ExpectStatus(response, 200).Err?
                 || (response.data.Some? && (response.data.value.issue || response.data.value.error))))
            ==> r == Some(DummySearchResult)
  {
    TransformDummySearch();
    if id == "" || birthdate == "" then None
    else match ExpectStatus(response, 200)
      case Err(_) => Some(TransformPatientSearch(Some(DummySearchBundle)))
      case Ok(data) =>
        if data.Some? && (data.value.issue || data.value.error) then Some(TransformPatientSearch(Some(DummySearchBundle)))
        else Some(TransformPatientSearch(data))
  }

  // ================================================================ the store

  /**
   * `PatientState`. `loadPatient` and `debounceSearchPatient` are split at
   * their `await`: `LoadPatientStart` runs before the request and
   * `LoadPatientSettle` after it, with the helper's outcome as a parameter.
   * An absent map entry reads as `undefined`; `None` in an error map is `null`.
   */
  class PatientStore {
    const patientIds: seq<string>

    var patientLoading: map<string, bool>
    var patientError: map<string, Option<ErrorRecord>>
    var patients: map<string, PatientView>

    var patientSearchLoading: map<string, bool>
    var patientSearchError: map<string, Option<ErrorRecord>>
    var patientSearch: map<string, Option<SearchResult>>
    var currentPatientSearch: Option<string>
    var searchBirthdate: string
    var searchNhi: string

    constructor()
      ensures patientIds == ["2143.1"]
      ensures patientLoading == map[] && patientError == map[] && patients == map[]
      ensures patientSearchLoading == map[] && patientSearchError == map[] && patientSearch == map[]
      ensures currentPatientSearch == None
      ensures searchBirthdate == "1931-08-18" && searchNhi == ""
    {
      patientIds := ["2143.1"];
      patientLoading, patientError, patients := map[], map[], map[];
      patientSearchLoading, patientSearchError, patientSearch := map[], map[], map[];
      currentPatientSearch := None;
      searchBirthdate, searchNhi := "1931-08-18", "";
    }

    /** `currentSearchResult`: the stored result of the current search, if any. */
    function CurrentSearchResult(): (r: Option<SearchResult>)
      reads this
      ensures r.Some? ==>
        && currentPatientSearch.Some? && currentPatientSearch.value in patientSearch
        && patientSearch[currentPatientSearch.value] == r
      ensures currentPatientSearch.Some? && currentPatientSearch.value in patientSearch ==>
        r == patientSearch[currentPatientSearch.value]
      ensures currentPatientSearch.None? || currentPatientSearch.value !in patientSearch ==> r.None?
    {
      if currentPatientSearch.Some? && currentPatientSearch.value in patientSearch
      then patientSearch[currentPatientSearch.value] else None
    }

    /** `isSearchLoading`: `!!patientSearchLoading[currentPatientSearch]`. */
    predicate IsSearchLoading()
      reads this
      ensures IsSearchLoading() <==>
        && currentPatientSearch.Some? && currentPatientSearch.value in patientSearchLoading
        && patientSearchLoading[currentPatientSearch.value]
    {
      currentPatientSearch.Some? && currentPatientSearch.value in patientSearchLoading &&
      patientSearchLoading[currentPatientSearch.value]
    }

    /** `isSearchError`: the error recorded for the current search, if any. */
    function IsSearchError(): (r: Option<ErrorRecord>)
      reads this
      ensures r.Some? ==>
        && currentPatientSearch.Some? && currentPatientSearch.value in patientSearchError
        && patientSearchError[currentPatientSearch.value] == r
      ensures currentPatientSearch.Some? && currentPatientSearch.value in patientSearchError ==>
        r == patientSearchError[currentPatientSearch.value]
      ensures currentPatientSearch.None? || currentPatientSearch.value !in patientSearchError ==> r.None?
    {
      if currentPatientSearch.Some? && currentPatientSearch.value in patientSearchError
      then patientSearchError[currentPatientSearch.value] else None
    }

    /**
     * The store's `searchPatient`: records the inputs, makes their key the
     * current search, marks it loading and clears its error.
     */
    method SearchPatient(id: string, birthdate: string)
      modifies this`searchNhi, this`searchBirthdate, this`currentPatientSearch
      modifies this`patientSearchLoading, this`patientSearchError
      ensures searchNhi == id && searchBirthdate == birthdate
      ensures currentPatientSearch == Some(SearchKey(id, birthdate))
      ensures patientSearchLoading == old(patientSearchLoading)[SearchKey(id, birthdate) := true]
      ensures patientSearchError == old(patientSearchError)[SearchKey(id, birthdate) := None]
      ensures IsSearchLoading() && IsSearchError().None?
    {
      var key := SearchKey(id, birthdate);
      searchNhi := id;
      searchBirthdate := birthdate;
      currentPatientSearch := Some(key);
      patientSearchLoading := patientSearchLoading[key := true];
      patientSearchError := patientSearchError[key := None];
    }

    /**
     * `debounceSearchPatient` once the helper has settled with `outcome`:
     * the result is stored under the search's key whatever the current
     * search; the error and the end of loading are recorded only when the
     * key is still the current search.
     */
    method DebounceSearchPatient(id: string, birthdate: string, outcome: Result<Option<SearchResult>>)
      modifies this`patientSearch, this`patientSearchError, this`patientSearchLoading
      ensures var key := SearchKey(id, birthdate);
        patientSearch == if outcome.Ok? then old(patientSearch)[key := outcome.value] else old(patientSearch)
      ensures var key := SearchKey(id, birthdate);
        patientSearchError ==
          if outcome.Err? && currentPatientSearch == Some(key)
          then old(patientSearchError)[key := Some(Record(outcome.error))]
          else old(patientSearchError)
      ensures var key := SearchKey(id, birthdate);
        patientSearchLoading ==
          if currentPatientSearch == Some(key) then old(patientSearchLoading)[key := false]
          else old(patientSearchLoading)
      ensures currentPatientSearch == Some(SearchKey(id, birthdate)) ==> !IsSearchLoading()
    {
      var key := SearchKey(id, birthdate);
      match outcome {
        case Ok(result) =>
          patientSearch := patientSearch[key := result];
        case Err(e) =>
          if currentPatientSearch == Some(key) {
            patientSearchError := patientSearchError[key := Some(Record(e))];
          }
      }
      if currentPatientSearch == Some(key) {
        patientSearchLoading := patientSearchLoading[key := false];
      }
    }

    /** `loadPatient` up to its `await`: the id is loading and its error cleared. */
    method LoadPatientStart(patientId: string)
      modifies this`patientLoading, this`patientError
      ensures patientLoading == old(patientLoading)[patientId := true]
      ensures patientError == old(patientError)[patientId := None]
    {
      patientLoading := patientLoading[patientId := true];
      patientError := patientError[patientId := None];
    }

    /**
     * `loadPatient` after its `await`: the patient or the error is stored
     * under the id, and the id stops loading. Other ids are untouched.
     */
    method LoadPatientSettle(patientId: string, outcome: Result<PatientView>)
      modifies this`patients, this`patientError, this`patientLoading
      ensures patients == if outcome.Ok? then old(patients)[patientId := outcome.value] else old(patients)
      ensures patientError == if outcome.Err? then old(patientError)[patientId := Some(Record(outcome.error))] else old(patientError)
      ensures patientLoading == old(patientLoading)[patientId := false]
    {
      match outcome {
        case Ok(patient) =>
          patients := patients[patientId := patient];
        case Err(e) =>
          patientError := patientError[patientId := Some(Record(e))];
      }
      patientLoading := patientLoading[patientId := false];
    }

    /**
     * A whole `loadPatient`: the start, then the settle with the outcome of
     * `getPatient`, which always succeeds. The id ends with its patient, no
     * error and not loading, and every other id is as it was.
     */
    method LoadPatient(patientId: string, response: Response<Option<Person>>)
      modifies this`patients, this`patientError, this`patientLoading
      ensures patients == old(patients)[patientId := GetPatient(response)]
      ensures patientError == old(patientError)[patientId := None]
      ensures patientLoading == old(patientLoading)[patientId := false]
      ensures forall other | other != patientId ::
        (other in patientLoading <==> other in old(patientLoading)) &&
        (other in patientLoading ==> patientLoading[other] == old(patientLoading)[other])
    {
      LoadPatientStart(patientId);
      LoadPatientSettle(patientId, Ok(GetPatient(response)));
    }
  }
}
