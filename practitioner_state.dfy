/**
 * The practitioner store: `transformPractitioner`, which guards the fields
 * `transformPatient` reads bare and lists every contact, `getPractitioner`,
 * which rethrows, and the `PractitionerState` store.
 */
module PractitionerState {
  import opened Common
  import opened Text
  import opened Fhir
  import PatientTransform

  /** One element of `nextOfKins`. */
  datatype Kin = Kin(
    name: Option<string>,
    phone: Option<string>,
    email: Option<string>,
    gender: Option<string>,
    relationship: string)

  datatype PractitionerView = PractitionerView(
    nhi: Option<string>,
    vcareId: Option<string>,
    name: Option<string>,
    initials: string,
    email: Option<string>,
    address: Option<string>,
    phone: Option<string>,
    birthDate: Option<string>,
    photo: Option<string>,
    gender: Option<string>,
    nextOfKins: seq<Kin>,
    original: Option<Person>)

  // ---------------------------------------------------------------- identifiers

  predicate HasUse(use: string, id: Identifier) {
    id.use == Some(use)
  }

  /** Position `i` holds the first identifier of `use`. */
  predicate FirstWithUse(ids: seq<Identifier>, use: string, i: int) {
    && 0 <= i < |ids| && ids[i].use == Some(use)
    && forall j | 0 <= j < i :: ids[j].use != Some(use)
  }

  /** `(identifier || []).find(({ use }) => use === u)` and then its `value`. */
  function IdentifierValue(identifier: Option<seq<Identifier>>, use: string): (r: Option<string>)
    ensures r.Some? ==> identifier.Some? && exists i | 0 <= i < |identifier.value| ::
      && identifier.value[i].use == Some(use)
      && identifier.value[i].value == r
      && (forall j | 0 <= j < i :: identifier.value[j].use != Some(use))
    ensures identifier.None? ==> r.None?
    // the first identifier of that use gives its value, whatever it is
    ensures identifier.Some? ==> forall i | FirstWithUse(identifier.value, use, i) :: r == identifier.value[i].value
  {
    var ids := identifier.GetOr([]);
    match FindIndex(ids, i => HasUse(use, i))
    case None => None
    case Some(k) => ids[k].value
  }

  // ---------------------------------------------------------------- name and address

  /**
   * `officialName && officialName.given.concat(officialName.family).join(" ")`:
   * absent without an official name, and a TypeError when that name has no
   * given names.
   */
  function OfficialName(name: Option<seq<HumanName>>): (r: Result<Option<string>>)
    ensures FindIndex(name.GetOr([]), IsOfficial).None? ==> r == Ok(None)
    ensures FindIndex(name.GetOr([]), IsOfficial).Some? ==>
      var n := name.value[FindIndex(name.value, IsOfficial).value];
      && (r.Ok? <==> n.given.Some?)
      && (r.Ok? ==> r.value == Some(Join(NameParts(n.given.value, n.family), " ")))
  {
    var names := name.GetOr([]);
    match FindIndex(names, IsOfficial)
    case None => Ok(None)
    case Some(k) =>
      match NameText(names[k])
      case Err(e) => Err(e)
      case Ok(text) => Ok(Some(text))
  }

  /**
   * `(line && PrettyLines(line)) || addressText` on the first address: the
   * pretty lines when they are not empty, the address text otherwise.
   */
  function PractitionerAddress(address: Option<seq<Address>>): (r: Option<string>)
    ensures var a := FirstAddress(address);
      a.Some? && a.value.line.Some? && PrettyLines(a.value.line.value) != "" ==>
        r == Some(PrettyLines(a.value.line.value))
    ensures var a := FirstAddress(address);
      !(a.Some? && a.value.line.Some? && PrettyLines(a.value.line.value) != "") ==>
        r == if a.Some? then a.value.text else None
  {
    match FirstAddress(address)
    case None => None
    case Some(a) =>
      if a.line.Some? && PrettyLines(a.line.value) != "" then Some(PrettyLines(a.line.value)) else a.text
  }

  // ---------------------------------------------------------------- next of kin

  /**
   * A contact the `nextOfKins` mapping gets through: it reads `telecom` and
   * `relationship` without a guard, and `name.given` whenever there is a name.
   */
  predicate ReadableKin(c: Contact) {
    c.telecom.Some? && c.relationship.Some? && (c.name.Some? ==> c.name.value.given.Some?)
  }

  /** The element of `nextOfKins` made of a readable contact. */
  function KinOf(c: Contact): (r: Kin)
    requires ReadableKin(c)
    ensures r.name.Some? <==> c.name.Some?
    ensures r.name.Some? ==> Ok(r.name.value) == NameText(c.name.value)
    ensures r.phone == TelecomValue(c.telecom.value, "phone")
    ensures r.email == TelecomValue(c.telecom.value, "email")
    ensures r.gender == c.gender
    ensures r.relationship == Join(Texts(c.relationship), ", ")
  {
    Kin(
      if c.name.Some? then Some(NameText(c.name.value).value) else None,
      TelecomValue(c.telecom.value, "phone"),
      TelecomValue(c.telecom.value, "email"),
      c.gender,
      Join(Texts(c.relationship), ", "))
  }

  predicate AllReadableKin(contacts: seq<Contact>) {
    forall i | 0 <= i < |contacts| :: ReadableKin(contacts[i])
  }

  /** `(contact || []).map(...)`: one element per contact, in contact order. */
  function Kins(contacts: seq<Contact>): (r: Result<seq<Kin>>)
    ensures r.Ok? <==> AllReadableKin(contacts)
    ensures r.Ok? ==> |r.value| == |contacts| && forall i | 0 <= i < |contacts| :: r.value[i] == KinOf(contacts[i])
  {
    if AllReadableKin(contacts) then Ok(seq(|contacts|, i requires 0 <= i < |contacts| => KinOf(contacts[i])))
    else Err(TypeError)
  }

  // ---------------------------------------------------------------- transformPractitioner

  /**
   * `transformPractitioner`. Unlike `transformPatient` it guards `telecom`,
   * `name`, `address` and `contact`; it still throws on a missing
   * practitioner (it reads `practitioner.identifier`), on an official name
   * without given names, and on a contact `ReadableKin` refuses.
   */
  function TransformPractitioner(practitioner: Option<Person>): (r: Result<PractitionerView>)
    ensures r.Ok? <==>
      && practitioner.Some?
      && OfficialName(practitioner.value.name).Ok?
      && AllReadableKin(practitioner.value.contact.GetOr([]))
  {
    match practitioner
    case None => Err(TypeError)
    case Some(p) =>
      match OfficialName(p.name)
      case Err(e) => Err(e)
      case Ok(name) =>
        match Kins(p.contact.GetOr([]))
        case Err(e) => Err(e)
        case Ok(kins) =>
          Ok(PractitionerView(
            IdentifierValue(p.identifier, "official"),
            IdentifierValue(p.identifier, "secondary"),
            name,
            if name.Some? then FormatInitials(name.value) else "",
            TelecomValue(p.telecom.GetOr([]), "email"),
            PractitionerAddress(p.address),
            TelecomValue(p.telecom.GetOr([]), "phone"),
            p.birthDate,
            PhotoUri(p.photo),
            p.gender,
            kins,
            practitioner))
  }

  /**
   * What a view `transformPractitioner` builds holds: nhi and vcareId from
   * the identifiers, email and phone from the telecoms, and the name,
   * initials, address, photo and contacts.
   */
  lemma TransformPractitionerFields(p: Person)
    requires TransformPractitioner(Some(p)).Ok?
    ensures var v := TransformPractitioner(Some(p)).value;
      && v.nhi == IdentifierValue(p.identifier, "official")
      && v.vcareId == IdentifierValue(p.identifier, "secondary")
      && v.email == TelecomValue(p.telecom.GetOr([]), "email")
      && v.phone == TelecomValue(p.telecom.GetOr([]), "phone")
      && Ok(v.name) == OfficialName(p.name)
      && v.address == PractitionerAddress(p.address)
      && v.photo == PhotoUri(p.photo)
      && v.birthDate == p.birthDate && v.gender == p.gender
      && v.original == Some(p)
    // "" without a name, else the first and last initials
    ensures var v := TransformPractitioner(Some(p)).value;
      v.initials == if v.name.Some? then FormatInitials(v.name.value) else ""
    ensures var v, contacts := TransformPractitioner(Some(p)).value, p.contact.GetOr([]);
      && |v.nextOfKins| == |contacts|
      && forall i | 0 <= i < |contacts| :: v.nextOfKins[i] == KinOf(contacts[i])
  {
  }

  /** A resource with none of its fields present transforms to an empty view. */
  lemma TransformEmptyPractitioner()
    ensures TransformPractitioner(Some(Person(None, None, None, None, None, None, None, None))) ==
      Ok(PractitionerView(None, None, None, "", None, None, None, None, None, None, [], Some(Person(None, None, None, None, None, None, None, None))))
  {
  }

  /**
   * Where `transformPatient` also gets through a resource, the two
   * transforms agree on the fields they share: the official name, its
   * initials, the email, the photo and a non-empty address.
   */
  lemma PractitionerAgreesWithPatient(p: Person)
    requires PatientTransform.TransformPatient(Some(p)).Ok?
    ensures TransformPractitioner(Some(p)).Ok? ==>
      var patient, practitioner := PatientTransform.TransformPatient(Some(p)).value, TransformPractitioner(Some(p)).value;
      && practitioner.name == Some(patient.name)
      && practitioner.initials == patient.initials
      && practitioner.email == patient.email
      && practitioner.photo == patient.photo
      && (patient.address.Some? && patient.address.value != "" ==> practitioner.address == patient.address)
  {
    if TransformPractitioner(Some(p)).Ok? {
      TransformPractitionerFields(p);
    }
  }

  // ================================================================ getPractitioner

  /** `${base_uri}${base_path_practitioner}/${practitionerId}` */
  function PractitionerUrl(baseUri: string, basePathPractitioner: string, practitionerId: string): (r: string)
    ensures |r| == |baseUri| + |basePathPractitioner| + 1 + |practitionerId|
    ensures r[..|baseUri| + |basePathPractitioner|] == baseUri + basePathPractitioner
    ensures r[|baseUri| + |basePathPractitioner|] == '/'
    ensures r[|baseUri| + |basePathPractitioner| + 1..] == practitionerId
  {
    baseUri + basePathPractitioner + "/" + practitionerId
  }

  /**
   * `getPractitioner` once the request has settled. It has no fallback: a
   * failed request, another status than 200 or a throwing transform is
   * rethrown.
   */
  function GetPractitioner(response: Response<Option<Person>>): (r: Result<PractitionerView>)
    ensures ExpectStatus(response, 200).Err? ==> r == Err(ExpectStatus(response, 200).error)
    ensures ExpectStatus(response, 200).Ok? ==> r == TransformPractitioner(response.data)
  {
    match ExpectStatus(response, 200)
    case Err(e) => Err(e)
    case Ok(data) => TransformPractitioner(data)
  }

  // ================================================================ the store

  /** `PractitionerState`, with `loadPractitioner` split at its `await`. */
  class PractitionerStore {
    var practitionerLoading: map<string, bool>
    var practitionerError: map<string, Option<ErrorRecord>>
    var practitioners: map<string, PractitionerView>

    constructor()
      ensures practitionerLoading == map[] && practitionerError == map[] && practitioners == map[]
    {
      practitionerLoading, practitionerError, practitioners := map[], map[], map[];
    }

    /** `loadPractitioner` up to its `await`: the id is loading and its error cleared. */
    method LoadPractitionerStart(practitionerId: string)
      modifies this`practitionerLoading, this`practitionerError
      ensures practitionerLoading == old(practitionerLoading)[practitionerId := true]
      ensures practitionerError == old(practitionerError)[practitionerId := None]
    {
      practitionerLoading := practitionerLoading[practitionerId := true];
      practitionerError := practitionerError[practitionerId := None];
    }

    /** `loadPractitioner` after its `await`: the result or the error, then loading ends. */
    method LoadPractitionerSettle(practitionerId: string, outcome: Result<PractitionerView>)
      modifies this`practitioners, this`practitionerError, this`practitionerLoading
      ensures practitioners ==
        if outcome.Ok? then old(practitioners)[practitionerId := outcome.value] else old(practitioners)
      ensures practitionerError ==
        if outcome.Err? then old(practitionerError)[practitionerId := Some(Record(outcome.error))]
        else old(practitionerError)
      ensures practitionerLoading == old(practitionerLoading)[practitionerId := false]
    {
      match outcome {
        case Ok(view) =>
          practitioners := practitioners[practitionerId := view];
        case Err(e) =>
          practitionerError := practitionerError[practitionerId := Some(Record(e))];
      }
      practitionerLoading := practitionerLoading[practitionerId := false];
    }

    /**
     * A whole `loadPractitioner`: the id ends with the outcome of
     * `getPractitioner`, whose errors reach the store's error map, and not
     * loading; other ids are untouched.
     */
    method LoadPractitioner(practitionerId: string, response: Response<Option<Person>>)
      modifies this`practitionerLoading, this`practitionerError, this`practitioners
      ensures var outcome := GetPractitioner(response);
        && practitioners ==
          (if outcome.Ok? then old(practitioners)[practitionerId := outcome.value] else old(practitioners))
        && practitionerError ==
          old(practitionerError)[practitionerId := if outcome.Err? then Some(Record(outcome.error)) else None]
      ensures practitionerLoading == old(practitionerLoading)[practitionerId := false]
    {
      var outcome := GetPractitioner(response);
      LoadPractitionerStart(practitionerId);
      LoadPractitionerSettle(practitionerId, outcome);
    }
  }
}
