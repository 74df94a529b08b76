/**
 * The built-in patient and search result the patient store falls back to,
 * with the fields the transforms read, and what they transform to.
 */
module PatientFixture {
  import opened Common
  import opened Text
  import opened Fhir
  import opened PatientTransform

  const WillowEmail := "Willow.Foster@residents.AdaLovelace.testvillages.rymanhealthcare.com"
  const KaneEmail := "kane.foster@nok.adalovelace.testvillages.rymanhealthcare.com"
  const KanePhone := "tel:+64-55-51234567"

  function KaneContact(code: string): Contact {
    Contact(
      Some([CodeableConcept(Some([Coding(Some(code))]), None)]),
      Some(HumanName(Some("official"), Some("Foster"), Some(["Kane"]))),
      Some([ContactPoint(Some("email"), Some(KaneEmail)), ContactPoint(Some("phone"), Some(KanePhone))]),
      Some("male"))
  }

  const DummyAddressLines: seq<string> := ["D003", "Dementia", "Ada Lovelace"] + ["", "", "", "", ""] + ["OTHER"]

  const DummyNames: seq<HumanName> :=
    [HumanName(Some("official"), Some("Foster"), Some(["Willow"])), HumanName(Some("usual"), None, Some(["Willow"]))]
  const DummyTelecom: seq<ContactPoint> :=
    [ContactPoint(Some("email"), Some(WillowEmail)), ContactPoint(Some("phone"), Some("tel:-1-686680"))]
  const DummyContacts: seq<Contact> := [KaneContact("N"), KaneContact("DPOWATT")]
  const DummyAddresses: seq<Address> := [Address(Some(DummyAddressLines), Some("D003,Dementia,Ada Lovelace,OTHER"))]
  const DummyPhotos: seq<Attachment> := [Attachment(Some(""))]

  /** `getDummyPatient()`, the fields the transform reads. */
  const DummyPatient: Person := Person(
    Some([Identifier(Some("official"), Some("ZGL5346")), Identifier(Some("secondary"), Some("2143.19"))]),
    Some(DummyNames),
    Some(DummyTelecom),
    Some("unknown"),
    Some("1931-08-18"),
    Some(DummyAddresses),
    Some(DummyPhotos),
    Some(DummyContacts))

  lemma DummyNameWords()
    ensures IsWord("Willow") && IsWord("Foster")
  {
    assert forall i | 0 <= i < 6 :: IsWordChar("Willow"[i]);
    assert forall i | 0 <= i < 6 :: IsWordChar("Foster"[i]);
  }

  lemma DummyName()
    ensures FindIndex(DummyNames, IsOfficial) == Some(0)
    ensures NameText(DummyNames[0]) == Ok("Willow Foster")
  {
    assert IsOfficial(DummyNames[0]);
    assert Join(NameParts(["Willow"], Some("Foster")), " ") == "Willow Foster";
  }

  lemma DummyInitials()
    ensures FormatInitials("Willow Foster") == "WF"
  {
    DummyNameWords();
    DummyName();
    FullNameInitials(DummyNames[0]);
  }

  lemma DummyAddressJoin()
    ensures PrettyLines(DummyAddressLines) == Join(["D003", "Dementia", "Ada Lovelace", "OTHER"], ", ")
  {
    var filled, blank, last := ["D003", "Dementia", "Ada Lovelace"], ["", "", "", "", ""], ["OTHER"];
    NonEmptyConcat(filled + blank, last);
    NonEmptyConcat(filled, blank);
    NonEmptyOfFilledLines(filled);
    NonEmptyOfBlankLines(blank);
    NonEmptyOfFilledLines(last);
    assert NonEmpty(DummyAddressLines) == ["D003", "Dementia", "Ada Lovelace", "OTHER"];
    PrettyLinesIsJoin(DummyAddressLines);
  }

  /** The kept lines are the four non-empty ones: "D003, Dementia, Ada Lovelace, OTHER". */
  lemma DummyAddressText()
    ensures AddressText(Some(DummyAddresses)) == Some(Join(["D003", "Dementia", "Ada Lovelace", "OTHER"], ", "))
  {
    DummyAddressJoin();
  }

  lemma DummyPhoto()
    ensures PhotoUri(Some(DummyPhotos)) == Some("")
  {
    assert FirstPhotoData(Some(DummyPhotos)) == Some("");
  }

  lemma DummyKin()
    ensures NextOfKinOf(DummyContacts) == Ok(NextOfKin(Some("Kane Foster"), Some(KanePhone), Some(KaneEmail)))
  {
    var kane := KaneContact("N");
    assert ContactVerdict(kane) == Match;
    assert Scan(DummyContacts, ContactVerdict) == Found(0);
    assert NameText(kane.name.value).value == "Kane Foster";
  }

  lemma DummyWellFormed()
    ensures WellFormedPatient(DummyPatient)
  {
    assert WellFormedContact(DummyContacts[0]);
    assert WellFormedContact(DummyContacts[1]);
    assert IsOfficial(DummyNames[0]);
  }

  /** The fixture patient transforms to the record the unit test expects. */
  lemma TransformDummyPatient()
    ensures var r := TransformPatient(Some(DummyPatient));
      && r.Ok?
      && r.value.name == "Willow Foster"
      && r.value.initials == "WF"
      && r.value.email == Some(WillowEmail)
      && r.value.address == Some(Join(["D003", "Dementia", "Ada Lovelace", "OTHER"], ", "))
      && r.value.birthDate == Some("1931-08-18")
      && r.value.photo == Some("")
      && r.value.gender == Some("unknown")
      && r.value.nextOfKin == NextOfKin(Some("Kane Foster"), Some(KanePhone), Some(KaneEmail))
      && r.value.original == Some(DummyPatient)
  {
    DummyWellFormed();
    TransformWellFormedPatient(DummyPatient);
    DummyName();
    DummyInitials();
    DummyAddressText();
    DummyPhoto();
    DummyKin();
  }

  /** `getDummySearchResult()`, the fields the transform reads. */
  const DummySearchBundle: SearchBundle :=
    SearchBundle(Some([SearchEntry(Some(SearchResource(Some("2143.19"))))]), Some(1), false, false)

  const DummySearchResult: SearchResult := SearchResult(["2143.19"], Some(1))

  lemma TransformDummySearch()
    ensures TransformPatientSearch(Some(DummySearchBundle)) == DummySearchResult
  {
    assert EntryIds(DummySearchBundle.entry.value) == ["2143.19"];
  }
}
