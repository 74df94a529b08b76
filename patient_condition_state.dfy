/**
 * The condition store: `transformPatientCondition`, the request URL and
 * fallback of `getPatientCondition`, and the `PatientConditionState` store.
 */
module PatientConditionState {
  import opened Common
  import opened Text

  /**
   * A Condition resource as the transform reads it: `text` is the narrative
   * object, given by the list of its property values in property order
   * (what `Object.values` returns).
   */
  datatype Condition = Condition(text: Option<seq<string>>)
  datatype ConditionEntry = ConditionEntry(resource: Option<Condition>)
  datatype ConditionBundle = ConditionBundle(entry: Option<seq<ConditionEntry>>)

  datatype Note = Note(id: nat, text: string)

  /** `{ notes, __original__ }` */
  datatype ConditionView = ConditionView(notes: seq<Note>, original: Option<ConditionBundle>)

  const NoteSeparator: string := "\n"

  /** `(entry || []).map(({ resource }) => resource)`, with the entries of an absent bundle. */
  function Entries(bundle: Option<ConditionBundle>): seq<ConditionEntry> {
    if bundle.Some? && bundle.value.entry.Some? then bundle.value.entry.value else []
  }

  /**
   * The entries the transform gets through: each holds a resource (else
   * destructuring it throws) whose `text` is present (else `Object.values`
   * throws).
   */
  predicate AllReadable(entries: seq<ConditionEntry>) {
    forall i | 0 <= i < |entries| :: entries[i].resource.Some? && entries[i].resource.value.text.Some?
  }

  function Notes(entries: seq<ConditionEntry>): seq<Note>
    requires AllReadable(entries)
  {
    seq(|entries|, i requires 0 <= i < |entries| => Note(i, Join(entries[i].resource.value.text.value, NoteSeparator)))
  }

  /**
   * `transformPatientCondition`: one note per entry, in entry order, whose
   * id is its position and whose text is the values of the narrative
   * joined by newlines. A missing resource or narrative throws.
   */
  function TransformPatientCondition(bundle: Option<ConditionBundle>): (r: Result<ConditionView>)
    ensures r.Ok? <==> AllReadable(Entries(bundle))
    ensures r.Ok? ==> r.value.original == bundle && |r.value.notes| == |Entries(bundle)|
    ensures bundle.None? || bundle.value.entry.None? ==> r == Ok(ConditionView([], bundle))
    ensures r.Ok? ==> forall i | 0 <= i < |r.value.notes| ::
      && r.value.notes[i].id == i
      && r.value.notes[i].text == Join(Entries(bundle)[i].resource.value.text.value, NoteSeparator)
  {
    var entries := Entries(bundle);
    if AllReadable(entries) then Ok(ConditionView(Notes(entries), bundle)) else Err(TypeError)
  }

  /**
   * The narrative's values can be read back from a note: when the narrative
   * has values and none of them holds a newline, splitting the note's text
   * on newlines gives them back.
   */
  lemma NoteTextReadsBack(bundle: Option<ConditionBundle>, i: nat)
    requires TransformPatientCondition(bundle).Ok? && i < |Entries(bundle)|
    requires var values := Entries(bundle)[i].resource.value.text.value;
      values != [] && forall k | 0 <= k < |values| :: '\n' !in values[k]
    ensures Split(TransformPatientCondition(bundle).value.notes[i].text, '\n') ==
      Entries(bundle)[i].resource.value.text.value
  {
    SplitJoin(Entries(bundle)[i].resource.value.text.value, '\n');
  }

  /** Notes keep the order of their entries across concatenated entry lists. */
  lemma NotesConcat(a: seq<ConditionEntry>, b: seq<ConditionEntry>)
    requires AllReadable(a) && AllReadable(b)
    ensures AllReadable(a + b)
    ensures Notes(a + b)[..|a|] == Notes(a)
    ensures forall i | 0 <= i < |b| :: Notes(a + b)[|a| + i] == Notes(b)[i].(id := |a| + i)
  {
    assert forall i | |a| <= i < |a + b| :: (a + b)[i] == b[i - |a|];
    assert forall i | 0 <= i < |a| :: (a + b)[i] == a[i];
  }

  // ================================================================ getPatientCondition

  /** `${base_uri}${base_path_patient}/${patientId}/Condition` */
  function ConditionUrl(baseUri: string, basePathPatient: string, patientId: string): (r: string)
    ensures |r| == |baseUri| + |basePathPatient| + |patientId| + 11
    ensures r[..|baseUri| + |basePathPatient|] == baseUri + basePathPatient
    ensures r[|baseUri| + |basePathPatient|] == '/'
    ensures r[|baseUri| + |basePathPatient| + 1..|r| - 10] == patientId
    ensures r[|r| - 10..] == "/Condition"
  {
    baseUri + basePathPatient + "/" + patientId + "/Condition"
  }

  /**
   * `getPatientCondition` once the request has settled: the transform of a
   * 200 response, otherwise the transform of the built-in fallback bundle.
   */
  function GetPatientCondition(response: Response<Option<ConditionBundle>>, fallback: Option<ConditionBundle>): (r: Result<ConditionView>)
    ensures ExpectStatus(response, 200).Ok? && TransformPatientCondition(response.data).Ok? ==>
      r == TransformPatientCondition(response.data)
    ensures !(ExpectStatus(response, 200).Ok? && TransformPatientCondition(response.data).Ok?) ==>
      r == TransformPatientCondition(fallback)
  {
    match ExpectStatus(response, 200)
    case Err(_) => TransformPatientCondition(fallback)
    case Ok(data) =>
      if TransformPatientCondition(data).Ok? then TransformPatientCondition(data)
      else TransformPatientCondition(fallback)
  }

  // ================================================================ the store

  /** `PatientConditionState`, with `loadPatientCondition` split at its `await`. */
  class ConditionStore {
    var patientConditionLoading: map<string, bool>
    var patientConditionError: map<string, Option<ErrorRecord>>
    var patientConditions: map<string, ConditionView>

    constructor()
      ensures patientConditionLoading == map[] && patientConditionError == map[] && patientConditions == map[]
    {
      patientConditionLoading, patientConditionError, patientConditions := map[], map[], map[];
    }

    /** `loadPatientCondition` up to its `await`: the id is loading and its error cleared. */
    method LoadPatientConditionStart(patientId: string)
      modifies this`patientConditionLoading, this`patientConditionError
      ensures patientConditionLoading == old(patientConditionLoading)[patientId := true]
      ensures patientConditionError == old(patientConditionError)[patientId := None]
    {
      patientConditionLoading := patientConditionLoading[patientId := true];
      patientConditionError := patientConditionError[patientId := None];
    }

    /** `loadPatientCondition` after its `await`: the result or the error, then loading ends. */
    method LoadPatientConditionSettle(patientId: string, outcome: Result<ConditionView>)
      modifies this`patientConditions, this`patientConditionError, this`patientConditionLoading
      ensures patientConditions ==
        if outcome.Ok? then old(patientConditions)[patientId := outcome.value] else old(patientConditions)
      ensures patientConditionError ==
        if outcome.Err? then old(patientConditionError)[patientId := Some(Record(outcome.error))]
        else old(patientConditionError)
      ensures patientConditionLoading == old(patientConditionLoading)[patientId := false]
    {
      match outcome {
        case Ok(view) =>
          patientConditions := patientConditions[patientId := view];
        case Err(e) =>
          patientConditionError := patientConditionError[patientId := Some(Record(e))];
      }
      patientConditionLoading := patientConditionLoading[patientId := false];
    }

    /**
     * A whole `loadPatientCondition`: the id ends with the outcome of
     * `getPatientCondition` and not loading; other ids are untouched.
     */
    method LoadPatientCondition(patientId: string, response: Response<Option<ConditionBundle>>, fallback: Option<ConditionBundle>)
      modifies this`patientConditionLoading, this`patientConditionError, this`patientConditions
      ensures var outcome := GetPatientCondition(response, fallback);
        && patientConditions ==
          (if outcome.Ok? then old(patientConditions)[patientId := outcome.value] else old(patientConditions))
        && patientConditionError ==
          old(patientConditionError)[patientId := if outcome.Err? then Some(Record(outcome.error)) else None]
      ensures patientConditionLoading == old(patientConditionLoading)[patientId := false]
    {
      LoadPatientConditionStart(patientId);
      LoadPatientConditionSettle(patientId, GetPatientCondition(response, fallback));
    }
  }
}
