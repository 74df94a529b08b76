/**
 * The discharge summary: `transformSummary`, which turns the form's values
 * into a FHIR Composition, the POST of `createDischargeSummary` with its 201
 * check, and the store's submitting/error flags.
 *
 * The name-based UUID (`uuidv5` in a fixed namespace), the clock reading
 * and the base64 text `FileReader` and `btoa` make of the PDF are inputs.
 */
module PatientDischargeSummaryState {
  import opened Common
  import opened Base64

  /** The fields of the current patient the composition carries. */
  datatype CurrentPatient = CurrentPatient(birthDate: Option<string>, vcareId: Option<string>, nhi: Option<string>)

  /**
   * The form's values. The chosen PDF file is given as its base64 text, and
   * is absent when the form was submitted without one.
   */
  datatype DischargeSummary = DischargeSummary(currentPatient: Option<CurrentPatient>, pdf: Option<string>, summary: Option<string>)

  /** The resources of `contained`, with the fields that are not constants. */
  datatype Resource =
    | PatientResource(id: string, vcareId: Option<string>, nhi: Option<string>, birthDate: Option<string>)
    | SummaryResource(id: string, div: string, data: string, size: int, creation: string)
    | OrganizationResource(id: string)
    | PractitionerResource(id: string)
  {
    function ResourceType(): string {
      match this
      case PatientResource(_, _, _, _) => "Patient"
      case SummaryResource(_, _, _, _, _) => "DocumentReference"
      case OrganizationResource(_) => "Organization"
      case PractitionerResource(_) => "Practitioner"
    }
  }

  datatype SectionEntry = SectionEntry(reference: string, resourceType: string)
  datatype Section = Section(code: Option<string>, entry: seq<SectionEntry>)

  datatype Composition = Composition(
    date: string,
    contained: seq<Resource>,
    section: seq<Section>,
    subject: string,
    author: string,
    custodian: string)

  const DivOpen: string := "<div xmlns=\"http://www.w3.org/1999/xhtml\">"
  const DivClose: string := "</div>"

  /** `renderDiv`: the content inside an XHTML `div`. */
  function RenderDiv(content: string): (r: string)
    ensures |r| == |DivOpen| + |content| + |DivClose|
    ensures r[..|DivOpen|] == DivOpen && r[|DivOpen|..|r| - |DivClose|] == content && r[|r| - |DivClose|..] == DivClose
  {
    DivOpen + content + DivClose
  }

  /** `` `#${id}` ``: a reference to a contained resource. */
  function Reference(r: Resource): string {
    "#" + r.id
  }

  // ---------------------------------------------------------------- sections

  const SectionResourceTypes: seq<string> := ["DocumentReference"]
  const DocumentReferenceCode: string := "11535-2"

  /** `sectionCodes[resourceType]`: only DocumentReference has a code. */
  function SectionCode(resourceType: string): Option<string> {
    if resourceType == "DocumentReference" then Some(DocumentReferenceCode) else None
  }

  /** `contained.filter(({ resourceType }) => sectionResourceTypes.includes(resourceType))` */
  function SectionResources(contained: seq<Resource>): (r: seq<Resource>)
    ensures |r| <= |contained|
    ensures forall x | x in r :: x in contained && x.ResourceType() in SectionResourceTypes
  {
    if contained == [] then []
    else
      var rest := SectionResources(contained[1..]);
      if contained[0].ResourceType() in SectionResourceTypes then [contained[0]] + rest else rest
  }

  /**
   * The keys of the object the `reduce` builds, in the order they are first
   * set: each resource type once, in order of first appearance.
   */
  function TypesInOrder(rs: seq<Resource>): (r: seq<string>)
    ensures forall t | t in r :: exists x | x in rs :: x.ResourceType() == t
    ensures forall x | x in rs :: x.ResourceType() in r
    ensures forall i, j | 0 <= i < j < |r| :: r[i] != r[j]
  {
    if rs == [] then []
    else
      var init := TypesInOrder(rs[..|rs| - 1]);
      var last := rs[|rs| - 1];
      assert forall x | x in rs :: x in rs[..|rs| - 1] || x == last;
      if last.ResourceType() in init then init else init + [last.ResourceType()]
  }

  /** The resources of one type, in order: the array the `reduce` keeps under that key. */
  function OfType(rs: seq<Resource>, t: string): (r: seq<Resource>)
    ensures forall x | x in r :: x in rs && x.ResourceType() == t
  {
    if rs == [] then []
    else
      var rest := OfType(rs[1..], t);
      if rs[0].ResourceType() == t then [rs[0]] + rest else rest
  }

  function Entries(rs: seq<Resource>): (r: seq<SectionEntry>)
    ensures |r| == |rs|
    ensures forall i | 0 <= i < |rs| :: r[i] == SectionEntry(Reference(rs[i]), rs[i].ResourceType())
  {
    seq(|rs|, i requires 0 <= i < |rs| => SectionEntry(Reference(rs[i]), rs[i].ResourceType()))
  }

  /** One section per grouped resource type, each listing its resources by reference. */
  function Sections(contained: seq<Resource>): seq<Section> {
    var grouped := SectionResources(contained);
    var types := TypesInOrder(grouped);
    seq(|types|, i requires 0 <= i < |types| => Section(SectionCode(types[i]), Entries(OfType(grouped, types[i]))))
  }

  /**
   * Every section entry refers to a resource in `contained` whose type is a
   * section type and is the entry's type, and no two sections share a type.
   */
  lemma SectionEntriesResolve(contained: seq<Resource>)
    ensures forall s | s in Sections(contained) :: forall e | e in s.entry ::
      exists x | x in contained :: e.reference == Reference(x) && e.resourceType == x.ResourceType() && x.ResourceType() in SectionResourceTypes
    ensures |Sections(contained)| <= |SectionResourceTypes|
  {
    var grouped := SectionResources(contained);
    var types := TypesInOrder(grouped);
    forall s | s in Sections(contained)
      ensures forall e | e in s.entry ::
        exists x | x in contained :: e.reference == Reference(x) && e.resourceType == x.ResourceType() && x.ResourceType() in SectionResourceTypes
    {
      var i :| 0 <= i < |types| && Sections(contained)[i] == s;
      var members := OfType(grouped, types[i]);
      forall e | e in s.entry
        ensures exists x | x in contained :: e.reference == Reference(x) && e.resourceType == x.ResourceType() && x.ResourceType() in SectionResourceTypes
      {
        var j :| 0 <= j < |members| && Entries(members)[j] == e;
        assert members[j] in members;
      }
    }
    DistinctTypesAreFew(types);
  }

  /** Distinct section types are no more than the section types there are. */
  lemma DistinctTypesAreFew(types: seq<string>)
    requires forall t | t in types :: t in SectionResourceTypes
    requires forall i, j | 0 <= i < j < |types| :: types[i] != types[j]
    ensures |types| <= |SectionResourceTypes|
  {
    if |types| > 1 {
      OnlyOneSectionType(types[0], types[1]);
      assert false;
    }
  }

  lemma OnlyOneSectionType(a: string, b: string)
    requires a in SectionResourceTypes && b in SectionResourceTypes
    ensures a == b
  {
  }

  // ---------------------------------------------------------------- transformSummary

  /** `date || `${d}T${time}``: the supplied date when it is truthy, otherwise the clock's. */
  function DateOrNow(date: Option<string>, now: string): (r: string)
    ensures date.Some? && date.value != "" ==> r == date.value
    ensures date.None? || date.value == "" ==> r == now
  {
    if date.Some? && date.value != "" then date.value else now
  }

  /** `summaryText && { resourceType: "DocumentReference", ... }` */
  function SummaryResourceOf(text: Option<string>, base64: string, creation: string, uuid: string -> string): (r: Option<Resource>)
    ensures r.Some? <==> text.Some? && text.value != ""
    ensures r.Some? ==> r.value == SummaryResource(uuid(text.value), RenderDiv(text.value), base64, DecodedSize(base64), creation)
  {
    if text.Some? && text.value != "" then
      Some(SummaryResource(uuid(text.value), RenderDiv(text.value), base64, DecodedSize(base64), creation))
    else None
  }

  /** `[].concat(patient).concat(summary).concat(organization).concat(practitioner).filter(item => !!item)` */
  function Contained(patient: Resource, summary: Option<Resource>, organization: Resource, practitioner: Resource): seq<Resource> {
    [patient] + (if summary.Some? then [summary.value] else []) + [organization, practitioner]
  }

  /**
   * With a summary resource, its section is the only one and holds only it;
   * without one there is no section.
   */
  lemma SectionsOfContained(p: Resource, s: Option<Resource>, o: Resource, pr: Resource)
    requires p.PatientResource? && o.OrganizationResource? && pr.PractitionerResource?
    requires s.Some? ==> s.value.SummaryResource?
    ensures s.Some? ==>
      Sections(Contained(p, s, o, pr)) == [Section(Some(DocumentReferenceCode), [SectionEntry(Reference(s.value), "DocumentReference")])]
    ensures s.None? ==> Sections(Contained(p, s, o, pr)) == []
  {
    var c := Contained(p, s, o, pr);
    assert SectionResources([pr]) == [] by { assert [pr][1..] == []; }
    assert SectionResources([o, pr]) == [] by { assert [o, pr][1..] == [pr]; }
    if s.Some? {
      var d := s.value;
      assert c == [p, d, o, pr];
      assert SectionResources([d, o, pr]) == [d] by { assert [d, o, pr][1..] == [o, pr]; }
      assert SectionResources(c) == [d] by { assert c[1..] == [d, o, pr]; }
      assert [d][..0] == [];
      assert TypesInOrder([d]) == ["DocumentReference"];
      assert [d][1..] == [];
      assert OfType([d], "DocumentReference") == [d];
      assert Entries([d]) == [SectionEntry(Reference(d), "DocumentReference")];
      assert Sections(c)[0] == Section(Some(DocumentReferenceCode), Entries([d]));
    } else {
      assert SectionResources(c) == [] by { assert c == [p, o, pr] && c[1..] == [o, pr]; }
    }
  }

  /**
   * `transformSummary`. Reading the PDF comes first, and `readAsBinaryString`
   * throws without a file (and so without form values); destructuring
   * `currentPatient` then throws when there is none. The attachment size is
   * `DecodedSize`, the size the code evidently means.
   */
  function TransformSummary(summary: Option<DischargeSummary>, date: Option<string>, now: string, uuid: string -> string): (r: Result<Composition>)
    ensures r.Ok? <==> summary.Some? && summary.value.pdf.Some? && summary.value.currentPatient.Some?
    ensures r.Err? ==> r.error == TypeError
    ensures r.Ok? ==>
      var cp, c := summary.value.currentPatient.value, r.value.contained;
      && 3 <= |c| <= 4
      // the patient first, the practitioner last, the organization before it
      && c[0] == PatientResource(uuid("patient"), cp.vcareId, cp.nhi, cp.birthDate)
      && c[|c| - 2] == OrganizationResource(uuid("Organization"))
      && c[|c| - 1] == PractitionerResource(uuid("Practitioner"))
      // the references point into `contained`
      && r.value.subject == Reference(c[0])
      && r.value.author == Reference(c[|c| - 1])
      && r.value.custodian == Reference(c[|c| - 2])
      && r.value.date == DateOrNow(date, now)
    // a summary resource, second, exactly when the summary text is non-empty, in the only section
    ensures r.Ok? ==>
      var text, base64, c := summary.value.summary, summary.value.pdf.value, r.value.contained;
      && (|c| == 4 <==> text.Some? && text.value != "")
      && (|c| == 4 ==>
        && c[1] == SummaryResource(uuid(text.value), RenderDiv(text.value), base64, DecodedSize(base64), DateOrNow(date, now))
        && r.value.section == [Section(Some(DocumentReferenceCode), [SectionEntry(Reference(c[1]), "DocumentReference")])])
      && (|c| == 3 ==> r.value.section == [])
  {
    match summary
    case None => Err(TypeError)
    case Some(s) =>
      match s.pdf
      case None => Err(TypeError)
      case Some(base64) =>
      match s.currentPatient
      case None => Err(TypeError)
      case Some(cp) =>
        var creation := DateOrNow(date, now);
        var patient := PatientResource(uuid("patient"), cp.vcareId, cp.nhi, cp.birthDate);
        var document := SummaryResourceOf(s.summary, base64, creation, uuid);
        var organization := OrganizationResource(uuid("Organization"));
        var practitioner := PractitionerResource(uuid("Practitioner"));
        var contained := Contained(patient, document, organization, practitioner);
        SectionsOfContained(patient, document, organization, practitioner);
        Ok(Composition(
          creation, contained, Sections(contained),
          Reference(patient), Reference(practitioner), Reference(organization)))
  }

  // ---------------------------------------------------------------- createDischargeSummary

  /**
   * The `createDischargeSummary` helper once its steps have settled: a
   * transform that throws is rethrown before any request; otherwise the
   * POST must answer 201.
   */
  function CreateDischargeSummaryRequest<T>(composition: Result<Composition>, response: Response<T>): (r: Result<T>)
    ensures composition.Err? ==> r == Err(composition.error)
    ensures composition.Ok? ==> r == ExpectStatus(response, 201)
    ensures r.Ok? <==> composition.Ok? && response.Response? && response.status == 201
  {
    match composition
    case Err(e) => Err(e)
    case Ok(_) => ExpectStatus(response, 201)
  }

  /** The store's submitting flag and recorded error. */
  class DischargeSummaryStore {
    var dischargeSummarySubmitting: bool
    var dischargeSummaryError: Option<ErrorRecord>

    constructor()
      ensures !dischargeSummarySubmitting && dischargeSummaryError.None?
    {
      dischargeSummarySubmitting, dischargeSummaryError := false, None;
    }

    /** `createDischargeSummary` up to its `await`. */
    method CreateDischargeSummaryStart()
      modifies this
      ensures dischargeSummarySubmitting && dischargeSummaryError.None?
    {
      dischargeSummarySubmitting, dischargeSummaryError := true, None;
    }

    /** `createDischargeSummary` after its `await`: the error, if any, then submitting ends. */
    method CreateDischargeSummarySettle<T>(outcome: Result<T>)
      modifies this
      ensures !dischargeSummarySubmitting
      ensures dischargeSummaryError == if outcome.Err? then Some(Record(outcome.error)) else old(dischargeSummaryError)
    {
      if outcome.Err? {
        dischargeSummaryError := Some(Record(outcome.error));
      }
      dischargeSummarySubmitting := false;
    }

    /**
     * A whole `createDischargeSummary`: submitting ends false, and the error
     * is recorded exactly when the transform throws or the POST does not
     * answer 201. The helper calls `transformSummary` without a date, so
     * the composition is dated by the clock.
     */
    method CreateDischargeSummary<T>(
      summary: Option<DischargeSummary>, now: string, uuid: string -> string,
      response: Response<T>)
      modifies this
      ensures !dischargeSummarySubmitting
      ensures var outcome := CreateDischargeSummaryRequest(TransformSummary(summary, None, now, uuid), response);
        dischargeSummaryError == if outcome.Err? then Some(Record(outcome.error)) else None
    {
      CreateDischargeSummaryStart();
      var outcome := CreateDischargeSummaryRequest(TransformSummary(summary, None, now, uuid), response);
      CreateDischargeSummarySettle(outcome);
    }
  }
}
