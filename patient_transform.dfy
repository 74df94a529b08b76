/**
 * `transformPatient` and `transformPatientSearch`: the FHIR Patient resource
 * and a Patient search bundle mapped to the flat records the screens show.
 */
module PatientTransform {
  import opened Common
  import opened Text
  import opened Fhir

  // ================================================================ view records

  datatype NextOfKin = NextOfKin(name: Option<string>, phone: Option<string>, email: Option<string>)

  /** The flat record `transformPatient` returns; `original` is `__original__`. */
  datatype PatientView = PatientView(
    name: string,
    initials: string,
    email: Option<string>,
    address: Option<string>,
    birthDate: Option<string>,
    photo: Option<string>,
    gender: Option<string>,
    nextOfKin: NextOfKin,
    original: Option<Person>)

  const NoKin := NextOfKin(None, None, None)

  // ================================================================ next of kin

  predicate IsNextOfKinCode(c: Coding) {
    c.code == Some("N")
  }

  /** `({ coding }) => !!coding.find(({ code }) => code === "N")`; throws without `coding`. */
  function RelationshipVerdict(r: CodeableConcept): Verdict {
    match r.coding
    case None => Throws
    case Some(codings) => if FindIndex(codings, IsNextOfKinCode).Some? then Match else NoMatch
  }

  /** `({ relationship }) => !!relationship.find(...)`; throws without `relationship`. */
  function ContactVerdict(c: Contact): Verdict {
    match c.relationship
    case None => Throws
    case Some(rels) =>
      match Scan(rels, RelationshipVerdict)
      case Found(_) => Match
      case NotFound => NoMatch
      case Thrown => Throws
  }

  /** A contact whose relationships all carry their codings. */
  predicate HasCodings(c: Contact) {
    c.relationship.Some? &&
    forall j | 0 <= j < |c.relationship.value| :: c.relationship.value[j].coding.Some?
  }

  /** A contact with all its codings is the next of kin exactly when one of them has code "N". */
  lemma {:induction false} ContactVerdictOfCodedContact(c: Contact)
    requires HasCodings(c)
    ensures ContactVerdict(c) != Throws
    ensures ContactVerdict(c) == Match <==>
      exists j, k | 0 <= j < |c.relationship.value| ::
        && 0 <= k < |c.relationship.value[j].coding.value|
        && c.relationship.value[j].coding.value[k].code == Some("N")
  {
    var rels := c.relationship.value;
    forall j | 0 <= j < |rels|
      ensures RelationshipVerdict(rels[j]) != Throws
      ensures RelationshipVerdict(rels[j]) == Match <==>
        exists k | 0 <= k < |rels[j].coding.value| :: rels[j].coding.value[k].code == Some("N")
    {
      assert rels[j].coding.Some?;
    }
    assert Scan(rels, RelationshipVerdict) != Thrown;
  }

  /**
   * The next-of-kin record of the chosen contact: `name && name.given.concat(name.family).join(" ")`
   * and the values of its first "phone" and "email" telecoms. Reading `given`
   * or `telecom` when absent throws.
   */
  function KinOf(kin: Contact): (r: Result<NextOfKin>)
    ensures r.Ok? <==> kin.telecom.Some? && (kin.name.Some? ==> kin.name.value.given.Some?)
    ensures r.Ok? ==> r.value.phone == TelecomValue(kin.telecom.value, "phone")
    ensures r.Ok? ==> r.value.email == TelecomValue(kin.telecom.value, "email")
    ensures r.Ok? ==> (r.value.name.Some? <==> kin.name.Some?)
  {
    var name: Result<Option<string>> :=
      match kin.name
      case None => Ok(None)
      case Some(n) => if n.given.Some? then Ok(Some(NameText(n).value)) else Err(TypeError);
    if name.Err? || kin.telecom.None? then Err(TypeError)
    else Ok(NextOfKin(name.value, TelecomValue(kin.telecom.value, "phone"), TelecomValue(kin.telecom.value, "email")))
  }

  /** `contact.find(...)` and then the record of the contact found, if any. */
  function NextOfKinOf(contacts: seq<Contact>): Result<NextOfKin> {
    match Scan(contacts, ContactVerdict)
    case NotFound => Ok(NoKin)
    case Thrown => Err(TypeError)
    case Found(i) => KinOf(contacts[i])
  }

  /** Without a contact whose relationships hold an "N" coding there is no next of kin. */
  lemma NextOfKinWithoutMatch(contacts: seq<Contact>)
    requires forall j | 0 <= j < |contacts| :: ContactVerdict(contacts[j]) == NoMatch
    ensures NextOfKinOf(contacts) == Ok(NoKin)
  {
  }

  /** The next of kin is read from the first contact whose relationships hold an "N" coding. */
  lemma NextOfKinFirstMatch(contacts: seq<Contact>, i: nat)
    requires i < |contacts| && ContactVerdict(contacts[i]) == Match
    requires forall j | 0 <= j < i :: ContactVerdict(contacts[j]) == NoMatch
    ensures NextOfKinOf(contacts) == KinOf(contacts[i])
  {
    ScanStopsAtFirstVerdict(contacts, ContactVerdict, i);
  }

  /** A contact before the next of kin without `relationship` or `coding` makes the lookup throw. */
  lemma NextOfKinThrows(contacts: seq<Contact>, i: nat)
    requires i < |contacts| && ContactVerdict(contacts[i]) == Throws
    requires forall j | 0 <= j < i :: ContactVerdict(contacts[j]) == NoMatch
    ensures NextOfKinOf(contacts).Err?
  {
    ScanStopsAtFirstVerdict(contacts, ContactVerdict, i);
  }

  // ================================================================ transformPatient

  /** `line && line.filter(l => !!l).join(", ").replace(/^,/gi, "").trim()` on the first address. */
  function AddressText(address: Option<seq<Address>>): (r: Option<string>)
    ensures r.Some? <==> FirstAddress(address).Some? && FirstAddress(address).value.line.Some?
    ensures r.Some? ==> r.value == PrettyLines(FirstAddress(address).value.line.value)
  {
    match FirstAddress(address)
    case None => None
    case Some(a) => if a.line.Some? then Some(PrettyLines(a.line.value)) else None
  }

  /**
   * `transformPatient`. It reads `telecom`, `name` and `contact` without a
   * guard, and the first official name's `given` too: any of them absent,
   * or no official name, raises a TypeError (the `Err` result).
   */
  function TransformPatient(patient: Option<Person>): (r: Result<PatientView>)
    ensures patient.None? ==> r.Err?
    ensures patient.Some? && (patient.value.telecom.None? || patient.value.name.None? || patient.value.contact.None?) ==> r.Err?
    ensures (&& patient.Some? && patient.value.name.Some?
             && forall k | 0 <= k < |patient.value.name.value| :: !IsOfficial(patient.value.name.value[k]))
            ==> r.Err?
    ensures r.Ok? ==> patient.Some? && patient.value.telecom.Some? && patient.value.name.Some? && patient.value.contact.Some?
    // the name is that of the first official name: its given names, then the family name
    ensures r.Ok? ==>
      var names := patient.value.name.value;
      var k := FindIndex(names, IsOfficial);
      && k.Some? && names[k.value].given.Some?
      && r.value.name == Join(NameParts(names[k.value].given.value, names[k.value].family), " ")
    ensures r.Ok? ==> r.value.initials == FormatInitials(r.value.name)
    ensures r.Ok? ==> r.value.email == TelecomValue(patient.value.telecom.value, "email")
    ensures r.Ok? ==> r.value.address == AddressText(patient.value.address)
    ensures r.Ok? ==> r.value.photo == PhotoUri(patient.value.photo)
    ensures r.Ok? ==> r.value.birthDate == patient.value.birthDate && r.value.gender == patient.value.gender
    ensures r.Ok? ==> r.value.original == patient
    // the next of kin is the first contact with an "N" relationship coding, or nobody
    ensures r.Ok? ==> Ok(r.value.nextOfKin) == NextOfKinOf(patient.value.contact.value)
  {
    if patient.None? then Err(TypeError)
    else
      var p := patient.value;
      if p.telecom.None? || p.name.None? then Err(TypeError)
      else match FindIndex(p.name.value, IsOfficial)
        case None => Err(TypeError)
        case Some(k) =>
          match NameText(p.name.value[k])
          case Err(e) => Err(e)
          case Ok(fullName) =>
            if p.contact.None? then Err(TypeError)
            else match NextOfKinOf(p.contact.value)
              case Err(e) => Err(e)
              case Ok(kin) =>
                Ok(PatientView(
                  fullName, FormatInitials(fullName), TelecomValue(p.telecom.value, "email"),
                  AddressText(p.address), p.birthDate, PhotoUri(p.photo), p.gender, kin, patient))
  }

  /** A patient resource with every field `transformPatient` reads without a guard. */
  predicate WellFormedPatient(p: Person) {
    && p.telecom.Some? && p.name.Some? && p.contact.Some?
    && (exists k | 0 <= k < |p.name.value| :: IsOfficial(p.name.value[k]))
    && (forall k | 0 <= k < |p.name.value| :: p.name.value[k].given.Some?)
    && (forall i | 0 <= i < |p.contact.value| :: WellFormedContact(p.contact.value[i]))
  }

  predicate WellFormedContact(c: Contact) {
    HasCodings(c) && c.telecom.Some? && (c.name.Some? ==> c.name.value.given.Some?)
  }

  /** A well-formed patient resource never makes the transform throw. */
  lemma TransformWellFormedPatient(p: Person)
    requires WellFormedPatient(p)
    ensures TransformPatient(Some(p)).Ok?
  {
    var cs := p.contact.value;
    forall i | 0 <= i < |cs|
      ensures ContactVerdict(cs[i]) != Throws
    {
      ContactVerdictOfCodedContact(cs[i]);
    }
    var k := FindIndex(p.name.value, IsOfficial);
    assert k.Some?;
    assert Scan(cs, ContactVerdict) != Thrown;
    if Scan(cs, ContactVerdict).Found? {
      assert WellFormedContact(cs[Scan(cs, ContactVerdict).index]);
    }
  }

  // ================================================================ search

  datatype SearchResource = SearchResource(id: Option<string>)
  datatype SearchEntry = SearchEntry(resource: Option<SearchResource>)

  /** A search bundle; `issue` and `error` say whether those fields are truthy. */
  datatype SearchBundle = SearchBundle(entry: Option<seq<SearchEntry>>, total: Option<int>, issue: bool, error: bool)

  datatype SearchResult = SearchResult(patientIds: seq<string>, total: Option<int>)

  /** `({ resource }) => resource && resource.id` */
  function ResourceId(e: SearchEntry): Option<string> {
    if e.resource.Some? then e.resource.value.id else None
  }

  /** `entry.map(({ resource }) => resource && resource.id).filter(id => !!id)` */
  function EntryIds(entries: seq<SearchEntry>): (r: seq<string>)
    ensures |r| <= |entries|
    ensures forall x :: x in r <==> x != "" && exists i | 0 <= i < |entries| :: ResourceId(entries[i]) == Some(x)
  {
    if entries == [] then []
    else
      var id := ResourceId(entries[0]);
      var rest := EntryIds(entries[1..]);
      assert forall i | 1 <= i < |entries| :: entries[i] == entries[1..][i - 1];
      assert forall i | 0 <= i < |entries[1..]| :: entries[1..][i] == entries[i + 1];
      (if id.Some? && id.value != "" then [id.value] else []) + rest
  }

  /** The ids keep the order of their entries: the ids of two runs of entries are concatenated. */
  lemma {:induction false} EntryIdsConcat(a: seq<SearchEntry>, b: seq<SearchEntry>)
    ensures EntryIds(a + b) == EntryIds(a) + EntryIds(b)
  {
    if a != [] {
      assert (a + b)[0] == a[0];
      assert (a + b)[1..] == a[1..] + b;
      EntryIdsConcat(a[1..], b);
    } else {
      assert a + b == b;
    }
  }

  /** When every entry carries a non-empty id, there is one id per entry, in entry order. */
  lemma {:induction false} EntryIdsOfIdentifiedEntries(entries: seq<SearchEntry>)
    requires forall i | 0 <= i < |entries| :: ResourceId(entries[i]).Some? && ResourceId(entries[i]).value != ""
    ensures |EntryIds(entries)| == |entries|
    ensures forall i | 0 <= i < |entries| :: Some(EntryIds(entries)[i]) == ResourceId(entries[i])
  {
    if entries != [] {
      var rest := entries[1..];
      EntryIdsOfIdentifiedEntries(rest);
      var ids := EntryIds(entries);
      assert ids == [ResourceId(entries[0]).value] + EntryIds(rest);
      forall i | 1 <= i < |entries|
        ensures Some(ids[i]) == ResourceId(entries[i])
      {
        assert entries[i] == rest[i - 1] && ids[i] == EntryIds(rest)[i - 1];
      }
    }
  }

  /** `transformPatientSearch`: the ids of the entries, and `total` passed through. */
  function TransformPatientSearch(bundle: Option<SearchBundle>): (r: SearchResult)
    ensures bundle.None? || bundle.value.entry.None? ==> r.patientIds == []
    ensures bundle.Some? && bundle.value.entry.Some? ==> r.patientIds == EntryIds(bundle.value.entry.value)
    ensures r.total == if bundle.Some? then bundle.value.total else None
  {
    match bundle
    case None => SearchResult([], None)
    case Some(b) => SearchResult(EntryIds(b.entry.GetOr([])), b.total)
  }

  const NhiSystem := "http://health.govt.nz/nhi"

  /** The `identifier` search parameter: the NHI system, a bar, then the id. */
  function SearchIdentifier(id: string): (r: string)
    ensures |r| == |NhiSystem| + 1 + |id|
    ensures r[..|NhiSystem|] == NhiSystem && r[|NhiSystem|] == '|' && r[|NhiSystem| + 1..] == id
  {
    NhiSystem + "|" + id
  }

  /** The key of a search: `${id}-${birthdate}`. */
  function SearchKey(id: string, birthdate: string): (r: string)
    ensures r == id + "-" + birthdate
  {
    id + "-" + birthdate
  }
}
