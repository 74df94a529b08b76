/**
 * The observation store: `transformPatientObservation`, the query of
 * `getPatientObservation` and its fallback, and the
 * `PatientObservationState` store with its date range and per-id maps.
 */
module PatientObservationState {
  import opened Common
  import opened Text
  import opened Fhir

  datatype Observation = Observation(
    category: Option<seq<CodeableConcept>>,
    code: Option<CodeableConcept>,
    issued: Option<string>,
    valueString: Option<string>,
    interpretation: Option<seq<CodeableConcept>>)

  datatype ObservationEntry = ObservationEntry(resource: Option<Observation>)
  datatype ObservationBundle = ObservationBundle(entry: Option<seq<ObservationEntry>>)

  /** One row of the observation table. */
  datatype Row = Row(
    id: nat,
    code: Option<string>,
    categories: string,
    interpretations: string,
    issued: Option<string>,
    value: Option<string>)

  /** `{ rows, __original__ }` */
  datatype ObservationView = ObservationView(rows: seq<Row>, original: Option<ObservationBundle>)

  /** The row made of the resource at position `index`. */
  function RowOf(index: nat, o: Observation): Row {
    Row(
      index,
      if o.code.Some? then o.code.value.text else None,
      Join(Texts(o.category), ", "),
      Join(Texts(o.interpretation), ", "),
      o.issued,
      o.valueString)
  }

  /** `(entry || []).map(({ resource }) => resource)`, with the entries of an absent bundle. */
  function Entries(bundle: Option<ObservationBundle>): seq<ObservationEntry> {
    if bundle.Some? && bundle.value.entry.Some? then bundle.value.entry.value else []
  }

  /** Every entry holds a resource, so that destructuring none of them throws. */
  predicate AllResourced(entries: seq<ObservationEntry>) {
    forall i | 0 <= i < |entries| :: entries[i].resource.Some?
  }

  /** The rows of the entries, each numbered by its position. */
  function Rows(entries: seq<ObservationEntry>): seq<Row>
    requires AllResourced(entries)
  {
    seq(|entries|, i requires 0 <= i < |entries| => RowOf(i, entries[i].resource.value))
  }

  /**
   * `transformPatientObservation`: one row per entry, in entry order, whose
   * id is its position. Destructuring an entry without a resource throws.
   */
  function TransformPatientObservation(bundle: Option<ObservationBundle>): (r: Result<ObservationView>)
    ensures r.Ok? <==> AllResourced(Entries(bundle))
    ensures r.Ok? ==> r.value.original == bundle && |r.value.rows| == |Entries(bundle)|
    ensures bundle.None? || bundle.value.entry.None? ==> r == Ok(ObservationView([], bundle))
    ensures r.Ok? ==> forall i | 0 <= i < |r.value.rows| ::
      var o, row := Entries(bundle)[i].resource.value, r.value.rows[i];
      && row.id == i
      && row.code == (if o.code.Some? then o.code.value.text else None)
      && row.categories == Join(Texts(o.category), ", ")
      && row.interpretations == Join(Texts(o.interpretation), ", ")
      && row.issued == o.issued
      && row.value == o.valueString
  {
    var entries := Entries(bundle);
    if AllResourced(entries) then Ok(ObservationView(Rows(entries), bundle)) else Err(TypeError)
  }

  /**
   * Rows keep the order of their entries: the rows of concatenated entries
   * are the rows of the first, then those of the second with their ids
   * moved on by the length of the first.
   */
  lemma RowsConcat(a: seq<ObservationEntry>, b: seq<ObservationEntry>)
    requires AllResourced(a) && AllResourced(b)
    ensures AllResourced(a + b)
    ensures |Rows(a + b)| == |Rows(a)| + |Rows(b)|
    ensures Rows(a + b)[..|a|] == Rows(a)
    ensures forall i | 0 <= i < |b| :: Rows(a + b)[|a| + i] == Rows(b)[i].(id := |a| + i)
  {
    assert forall i | |a| <= i < |a + b| :: (a + b)[i] == b[i - |a|];
    assert forall i | 0 <= i < |a| :: (a + b)[i] == a[i];
  }

  /** The bundle made of the entries of two bundles. */
  function Concat(a: ObservationBundle, b: ObservationBundle): ObservationBundle {
    ObservationBundle(Some(a.entry.GetOr([]) + b.entry.GetOr([])))
  }

  /** The transform of two concatenated bundles, in the terms of `RowsConcat`. */
  lemma TransformConcat(a: ObservationBundle, b: ObservationBundle)
    requires TransformPatientObservation(Some(a)).Ok? && TransformPatientObservation(Some(b)).Ok?
    ensures TransformPatientObservation(Some(Concat(a, b))).Ok?
    ensures var ra, rb := TransformPatientObservation(Some(a)).value.rows, TransformPatientObservation(Some(b)).value.rows;
      var r := TransformPatientObservation(Some(Concat(a, b))).value.rows;
      && |r| == |ra| + |rb|
      && r[..|ra|] == ra
      && forall i | 0 <= i < |rb| :: r[|ra| + i] == rb[i].(id := |ra| + i)
  {
    RowsConcat(Entries(Some(a)), Entries(Some(b)));
  }

  // ================================================================ getPatientObservation

  /** The query parameters of the observation search. */
  datatype ObservationQuery = ObservationQuery(patientId: string, start: string, end: string)

  /** `"XXXX-XX-XX".length`: an ISO date without its time. */
  const DateLength := 10

  /** The dates sent are the first ten characters ("YYYY-MM-DD") of the range's ends. */
  function QueryOf(patientId: string, start: string, end: string): (q: ObservationQuery)
    ensures q.patientId == patientId
    ensures |start| >= DateLength ==> q.start == start[..DateLength]
    ensures |start| < DateLength ==> q.start == start
    ensures |end| >= DateLength ==> q.end == end[..DateLength]
    ensures |end| < DateLength ==> q.end == end
  {
    ObservationQuery(patientId, Prefix(start, DateLength), Prefix(end, DateLength))
  }

  /**
   * `getPatientObservation` once the request has settled: the transform of
   * a 200 response, and otherwise (a failed request, another status, or a
   * transform that throws) the transform of the built-in fallback bundle.
   */
  function GetPatientObservation(response: Response<Option<ObservationBundle>>, fallback: Option<ObservationBundle>): (r: Result<ObservationView>)
    ensures ExpectStatus(response, 200).Ok? && TransformPatientObservation(response.data).Ok? ==>
      r == TransformPatientObservation(response.data)
    ensures !(ExpectStatus(response, 200).Ok? && TransformPatientObservation(response.data).Ok?) ==>
      r == TransformPatientObservation(fallback)
  {
    match ExpectStatus(response, 200)
    case Err(_) => TransformPatientObservation(fallback)
    case Ok(data) =>
      if TransformPatientObservation(data).Ok? then TransformPatientObservation(data)
      else TransformPatientObservation(fallback)
  }

  /** With a fallback bundle whose entries all hold a resource, the request never fails. */
  lemma GetPatientObservationNeverFails(response: Response<Option<ObservationBundle>>, fallback: ObservationBundle)
    requires AllResourced(Entries(Some(fallback)))
    ensures GetPatientObservation(response, Some(fallback)).Ok?
  {
  }

  // ================================================================ the store

  /**
   * `PatientObservationState`, with `loadPatientObservation` split at its
   * `await`. The clock reading that initialises the range is a parameter.
   */
  class ObservationStore {
    var patientObservationLoading: map<string, bool>
    var patientObservationError: map<string, Option<ErrorRecord>>
    var patientObservations: map<string, ObservationView>
    var start: string
    var end: string

    /** Each end of the range is its own clock reading. */
    constructor(startNow: string, endNow: string)
      ensures patientObservationLoading == map[] && patientObservationError == map[] && patientObservations == map[]
      ensures start == startNow && end == endNow
    {
      patientObservationLoading, patientObservationError, patientObservations := map[], map[], map[];
      start, end := startNow, endNow;
    }

    /** The query sent for a patient, from the store's current range. */
    function Query(patientId: string): (q: ObservationQuery)
      reads this
      ensures q == QueryOf(patientId, start, end)
    {
      QueryOf(patientId, start, end)
    }

    /**
     * `loadPatientObservation` up to its `await`: a truthy start or end
     * replaces the stored one; the id is loading and its error cleared.
     */
    method LoadPatientObservationStart(patientId: string, newStart: Option<string>, newEnd: Option<string>)
      modifies this`start, this`end, this`patientObservationLoading, this`patientObservationError
      ensures start == if newStart.Some? && newStart.value != "" then newStart.value else old(start)
      ensures end == if newEnd.Some? && newEnd.value != "" then newEnd.value else old(end)
      ensures patientObservationLoading == old(patientObservationLoading)[patientId := true]
      ensures patientObservationError == old(patientObservationError)[patientId := None]
    {
      if newStart.Some? && newStart.value != "" {
        start := newStart.value;
      }
      if newEnd.Some? && newEnd.value != "" {
        end := newEnd.value;
      }
      patientObservationLoading := patientObservationLoading[patientId := true];
      patientObservationError := patientObservationError[patientId := None];
    }

    /** `loadPatientObservation` after its `await`: the result or the error, then loading ends. */
    method LoadPatientObservationSettle(patientId: string, outcome: Result<ObservationView>)
      modifies this`patientObservations, this`patientObservationError, this`patientObservationLoading
      ensures patientObservations ==
        if outcome.Ok? then old(patientObservations)[patientId := outcome.value] else old(patientObservations)
      ensures patientObservationError ==
        if outcome.Err? then old(patientObservationError)[patientId := Some(Record(outcome.error))]
        else old(patientObservationError)
      ensures patientObservationLoading == old(patientObservationLoading)[patientId := false]
    {
      match outcome {
        case Ok(view) =>
          patientObservations := patientObservations[patientId := view];
        case Err(e) =>
          patientObservationError := patientObservationError[patientId := Some(Record(e))];
      }
      patientObservationLoading := patientObservationLoading[patientId := false];
    }

    /**
     * A whole `loadPatientObservation`: the query uses the range after the
     * update, and the id ends with the outcome of `getPatientObservation`
     * and not loading; other ids are untouched.
     */
    method LoadPatientObservation(
      patientId: string, newStart: Option<string>, newEnd: Option<string>,
      response: Response<Option<ObservationBundle>>, fallback: Option<ObservationBundle>)
      returns (query: ObservationQuery)
      modifies this`start, this`end, this`patientObservationLoading, this`patientObservationError, this`patientObservations
      ensures start == if newStart.Some? && newStart.value != "" then newStart.value else old(start)
      ensures end == if newEnd.Some? && newEnd.value != "" then newEnd.value else old(end)
      ensures query == QueryOf(patientId, start, end)
      ensures var outcome := GetPatientObservation(response, fallback);
        && patientObservations ==
          (if outcome.Ok? then old(patientObservations)[patientId := outcome.value] else old(patientObservations))
        && patientObservationError ==
          old(patientObservationError)[patientId := if outcome.Err? then Some(Record(outcome.error)) else None]
      ensures patientObservationLoading == old(patientObservationLoading)[patientId := false]
    {
      LoadPatientObservationStart(patientId, newStart, newEnd);
      query := Query(patientId);
      LoadPatientObservationSettle(patientId, GetPatientObservation(response, fallback));
    }
  }
}
