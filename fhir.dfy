/**
 * The parts of FHIR resources that the patient and practitioner transforms
 * read, and the field-level helpers both transforms apply in the same way:
 * the photo data URI, the first telecom of a system, a human name as text,
 * and the first address.
 *
 * Every JSON field the code may find missing is an `Option`; a field the
 * code reads without a guard makes the transform throw when it is `None`.
 */
module Fhir {
  import opened Common
  import opened Text

  datatype ContactPoint = ContactPoint(system: Option<string>, value: Option<string>)
  datatype HumanName = HumanName(use: Option<string>, family: Option<string>, given: Option<seq<string>>)
  datatype Address = Address(line: Option<seq<string>>, text: Option<string>)
  datatype Coding = Coding(code: Option<string>)
  datatype CodeableConcept = CodeableConcept(coding: Option<seq<Coding>>, text: Option<string>)
  datatype Contact = Contact(
    relationship: Option<seq<CodeableConcept>>,
    name: Option<HumanName>,
    telecom: Option<seq<ContactPoint>>,
    gender: Option<string>)
  datatype Attachment = Attachment(data: Option<string>)
  datatype Identifier = Identifier(use: Option<string>, value: Option<string>)

  /** A Patient or a Practitioner resource: both transforms destructure the same fields. */
  datatype Person = Person(
    identifier: Option<seq<Identifier>>,
    name: Option<seq<HumanName>>,
    telecom: Option<seq<ContactPoint>>,
    gender: Option<string>,
    birthDate: Option<string>,
    address: Option<seq<Address>>,
    photo: Option<seq<Attachment>>,
    contact: Option<seq<Contact>>)

  // ---------------------------------------------------------------- photo

  const PngDataUriPrefix: string := "data:image/png;base64,"

  /** `const [firstPhoto] = photos || []; const { data } = firstPhoto || {};` */
  function FirstPhotoData(photos: Option<seq<Attachment>>): Option<string> {
    if photos.Some? && photos.value != [] then photos.value[0].data else None
  }

  /**
   * `data && `data:image/png;base64,${data}``: a PNG data URI carrying the
   * first photo's data when that data is a non-empty string, otherwise the
   * falsy data itself.
   */
  function PhotoUri(photos: Option<seq<Attachment>>): (r: Option<string>)
    ensures var data := FirstPhotoData(photos);
      (r.Some? && r.value != "") <==> (data.Some? && data.value != "")
    ensures var data := FirstPhotoData(photos);
      !(data.Some? && data.value != "") ==> r == data
    ensures var data := FirstPhotoData(photos);
      data.Some? && data.value != "" ==>
        && |PngDataUriPrefix| <= |r.value|
        && r.value[..|PngDataUriPrefix|] == PngDataUriPrefix
        && r.value[|PngDataUriPrefix|..] == data.value
  {
    var data := FirstPhotoData(photos);
    if data.Some? && data.value != "" then Some(PngDataUriPrefix + data.value) else data
  }

  // ---------------------------------------------------------------- telecom

  predicate HasSystem(system: string, c: ContactPoint) {
    c.system == Some(system)
  }

  /** Position `i` holds the first contact point of `system`. */
  predicate FirstOfSystem(telecom: seq<ContactPoint>, system: string, i: int) {
    && 0 <= i < |telecom| && telecom[i].system == Some(system)
    && forall j | 0 <= j < i :: telecom[j].system != Some(system)
  }

  /**
   * `(telecom.find(({ system }) => system === s) || {}).value`: the value of
   * the first contact point of that system, absent when there is none.
   */
  function TelecomValue(telecom: seq<ContactPoint>, system: string): (r: Option<string>)
    ensures (forall i | 0 <= i < |telecom| :: telecom[i].system != Some(system)) ==> r.None?
    ensures r.Some? ==> exists i | 0 <= i < |telecom| ::
      && telecom[i].system == Some(system)
      && telecom[i].value == r
      && (forall j | 0 <= j < i :: telecom[j].system != Some(system))
    // the first contact point of that system gives its value, whatever it is
    ensures forall i | FirstOfSystem(telecom, system, i) :: r == telecom[i].value
  {
    match FindIndex(telecom, c => HasSystem(system, c))
    case None => None
    case Some(k) => telecom[k].value
  }

  // ---------------------------------------------------------------- names

  predicate IsOfficial(n: HumanName) {
    n.use == Some("official")
  }

  /** The given names followed by the family name; an absent family name joins as "". */
  function NameParts(given: seq<string>, family: Option<string>): seq<string> {
    given + [family.GetOr("")]
  }

  /** `name.given.concat(name.family).join(" ")`, which throws when `given` is absent. */
  function NameText(n: HumanName): (r: Result<string>)
    ensures r.Ok? <==> n.given.Some?
  {
    match n.given
    case None => Err(TypeError)
    case Some(given) => Ok(Join(NameParts(given, n.family), " "))
  }

  /**
   * The full name is the given names and the family name separated by
   * single spaces: when no part holds a space, splitting the text on spaces
   * gives the parts back.
   */
  lemma FullNameReadsBack(n: HumanName)
    requires n.given.Some?
    requires forall i | 0 <= i < |n.given.value| :: ' ' !in n.given.value[i]
    requires ' ' !in n.family.GetOr("")
    ensures Split(NameText(n).value, ' ') == n.given.value + [n.family.GetOr("")]
  {
    var parts := NameParts(n.given.value, n.family);
    assert forall i | 0 <= i < |parts| :: ' ' !in parts[i] by {
      forall i | 0 <= i < |parts|
        ensures ' ' !in parts[i]
      {
        if i < |n.given.value| {
          assert parts[i] == n.given.value[i];
        }
      }
    }
    SplitJoin(parts, ' ');
  }

  /**
   * With single-word given names and family name, the initials are the
   * upper-cased first letters of the first given name and of the family name
   * (only the family name's when no given name is recorded).
   */
  lemma FullNameInitials(n: HumanName)
    requires n.given.Some? && n.family.Some?
    requires forall i | 0 <= i < |n.given.value| :: IsWord(n.given.value[i])
    requires IsWord(n.family.value)
    ensures var given, family := n.given.value, n.family.value;
      (given != [] ==> |given[0]| > 0) &&
      FormatInitials(NameText(n).value) ==
        if given == [] then [UpperAscii(family[0])]
        else [UpperAscii(given[0][0]), UpperAscii(family[0])]
  {
    var parts := NameParts(n.given.value, n.family);
    assert forall i | 0 <= i < |parts| :: IsWord(parts[i]) by {
      forall i | 0 <= i < |parts|
        ensures IsWord(parts[i])
      {
        if i < |n.given.value| {
          assert parts[i] == n.given.value[i];
        }
      }
    }
    InitialsOfWords(parts);
  }

  // ---------------------------------------------------------------- concepts

  /**
   * `concepts.map(({ text }) => text)`, read as `(concepts || [])` by the
   * observation rows; an absent text joins as "".
   */
  function Texts(concepts: Option<seq<CodeableConcept>>): (r: seq<string>)
    ensures concepts.None? ==> r == []
    ensures concepts.Some? ==> |r| == |concepts.value|
    ensures concepts.Some? ==> forall i | 0 <= i < |r| :: r[i] == concepts.value[i].text.GetOr("")
  {
    match concepts
    case None => []
    case Some(cs) => seq(|cs|, i requires 0 <= i < |cs| => cs[i].text.GetOr(""))
  }

  // ---------------------------------------------------------------- address

  /** `address && address[0]`: the first address, absent for a missing or empty list. */
  function FirstAddress(address: Option<seq<Address>>): Option<Address> {
    if address.Some? && address.value != [] then Some(address.value[0]) else None
  }
}
