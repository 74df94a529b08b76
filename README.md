# health-demo: a Dafny model of its data mappings, table sort and stores

health-demo is a React/MobX front end for a clinical demo. It reads FHIR
resources from a REST API and shows them to a practitioner. This project
models the parts of it that compute something:

- **The FHIR to view-record transforms.** `transformPatient`,
  `transformPatientSearch`, `transformPractitioner`,
  `transformPatientObservation` and `transformPatientCondition` turn JSON
  resources into the flat records the screens show.
- **The request helpers.** `getPatient`, `searchPatient`,
  `getPatientObservation`, `getPatientCondition` and `getPractitioner`
  each have a status check and a fallback fixture or a rethrow. The
  response is an input.
- **The MobX stores.** They keep per-id loading, error and result maps
  (`PatientState`, `PatientObservationState`, `PatientConditionState`,
  `PractitionerState`), submitting and error flags
  (`PatientDischargeSummaryState`, `PatientTransferPackState`), and the
  session (`AuthState`).
- **`transformSummary`.** It builds the discharge-summary FHIR
  Composition: the contained resources, the sections grouped by resource
  type, the `#id` references, and the attachment size computed from the
  base64 text of the PDF.
- **The observation table's sorting.** `desc`, `getSorting`, the
  index-decorated `stableSort`, and the `handleRequestSort` toggle.
- **The notes of the GP consultation form.** `handleAddNote` and its
  state.

JSON values are datatypes. A field the code may find `undefined` or
`null` is an `Option`. A JavaScript `TypeError`, raised when the code reads
a property of a missing value, is the `Err(TypeError)` of a `Result`,
because every transform runs inside a `try` that catches it.

Each async store action is split at its `await`:

- a `...Start` method makes the updates before the request;
- a `...Settle` method takes the awaited helper's outcome as a parameter and makes the updates after it;
- a method named after the action runs both in turn.

Modules, one per file:

| module | file |
|---|---|
| `Common` | optionals, errors, responses, `find` |
| `Text` | `join`, `split`, `filter`, `trim`, `substring`, word initials, string `<` |
| `Fhir` | the FHIR resource shapes and their shared field helpers |
| `Base64` | base64 encoding and the attachment size |
| `PatientTransform` | `transformPatient` and `transformPatientSearch` |
| `PatientFixture` | `getDummyPatient` and `getDummySearchResult` |
| `PatientState` | the patient store |
| `PatientObservationState` | the observation store |
| `PatientConditionState` | the condition store |
| `PractitionerState` | the practitioner store |
| `PatientDischargeSummaryState` | the discharge summary |
| `PatientTransferPackState` | the transfer pack |
| `AuthState` | the session store |
| `ObservationTable` | the sorting of the observation table |
| `GpNotes` | the consultation form's notes |

## Model

| member | source | states |
|---|---|---|
| Common.ExpectStatus | src/state/PatientState.js:139-141 | A response passes the status check exactly when it arrived with the expected status, and then yields its body. Another status gives the "Invalid status" error, and a rejected request gives its own error. |
| Common.FindIndex | src/state/PatientState.js:202 | `find` returns the first element matching the predicate: no earlier element matches it, and there is none exactly when no element matches. |
| Common.Scan | src/state/PatientState.js:220-222 | `find` with a predicate that may throw. It finds the first match, propagates the first throw, and reports no match only when every element answers no. |
| Common.ScanStopsAtFirstVerdict | src/state/PatientState.js:220-222 | The scan's outcome is decided by the first element that does not answer "no match". |
| Text.JoinAppend | src/state/PatientState.js:203 | The recursive `Join` agrees with the left-to-right accumulation that defines `Array.prototype.join`. |
| Text.SplitJoin | src/state/PatientConditionState.js:83 | Joining with a one-character separator that occurs in no part is undone by splitting on it. |
| Text.NonEmptyMembers | src/state/PatientState.js:210 | `filter(l => !!l)` keeps exactly the non-empty lines. |
| Text.NonEmptyConcat | src/state/PatientState.js:210 | The filter keeps the order of the lines: it distributes over concatenation. |
| Text.StripLeadingComma | src/state/PatientState.js:212 | `replace(/^,/gi, "")` removes at most one comma, and only at position 0. |
| Text.Trim | src/state/PatientState.js:213 | The result of `trim` neither starts nor ends with ECMAScript whitespace. |
| Text.TrimIsInfix | src/state/PatientState.js:213 | What `trim` keeps is a contiguous part of the input, and only whitespace is dropped before and after it. |
| Text.PrettyLinesOfBlankLines | src/state/PatientState.js:207-213 | An address whose lines are all empty formats as "". |
| Text.PrettyLinesIsJoin | src/state/PatientState.js:207-213 | When the kept lines start with neither a comma nor whitespace and do not end in whitespace, the address is the non-empty lines joined by ", ". |
| Text.WordStartsConcat | src/state/PatientState.js:216 | The matches of `/\b\w/g` in a concatenation are those of each part, the second part read after the first. |
| Text.WordStartsOfWords | src/state/PatientState.js:216 | In words joined by single spaces, the word-initial matches are the words' first characters. |
| Text.FormatInitials | src/state/PatientState.js:216-217 | The initials are at most two word characters, and "" exactly when the name has no word-initial match. |
| Text.InitialsOfWords | src/state/PatientState.js:216-217 | For words joined by single spaces, the initials are the upper-cased first letters of the first word and of the last word. |
| Text.StrLessTransitive | src/components/PatientObservationTableComponent.js:13-18 | String `<` is transitive. |
| Text.StrLessTotal | src/components/PatientObservationTableComponent.js:13-18 | Of two different strings, one is `<` the other. |
| Text.StrLessAsymmetric | src/components/PatientObservationTableComponent.js:13-18 | String `<` holds in at most one direction. |
| Fhir.PhotoUri | src/state/PatientState.js:194-196 | The photo is a PNG data URI carrying the first photo's data when that data is a non-empty string. Otherwise it is the falsy data itself. |
| Fhir.TelecomValue | src/state/PatientState.js:199 | The value of the first contact point of the given system, and absent when no contact point has that system. |
| Fhir.NameText | src/state/PatientState.js:203 | A name's text exists exactly when its `given` is present. Otherwise `given.concat` throws. |
| Fhir.FullNameReadsBack | src/state/PatientState.js:202-203 | The full name is the given names, then the family name, separated by single spaces. When no part holds a space, splitting it on spaces gives the parts back. |
| Fhir.FullNameInitials | src/state/PatientState.js:202-217 | With single-word names, the initials are the upper-cased first letters of the first given name and of the family name. |
| Fhir.Texts | src/state/PatientObservationState.js:100-101 | The `text` of each concept, in order, and [] when the concepts are absent. |
| Base64.Quantum | src/state/PatientDischargeSummaryState.js:104 | A base64 quantum is four characters, padded with one `=` for two bytes and with two for one byte. |
| Base64.EncodeLength | src/state/PatientDischargeSummaryState.js:104 | Base64 text has four characters for every three bytes begun. |
| Base64.EncodeTail | src/state/PatientDischargeSummaryState.js:104 | The last character is `=` exactly when the byte count is not a multiple of three. The one before it is `=` exactly when one byte is left over. |
| Base64.DecodedSizeOfEncoding | src/state/PatientDischargeSummaryState.js:111-112 | The corrected size of the encoding of any bytes is their number. |
| Base64.AsWrittenSizeOfEncoding | src/state/PatientDischargeSummaryState.js:111-112 | The size as written is right for padded text, and one byte short when the byte count is a multiple of three. |
| Base64.AsWrittenSizeOfThreeBytes | src/state/PatientDischargeSummaryState.js:111-112 | Three bytes encode as "AAAA", which the code sizes at 2 where 3 is meant. |
| PatientTransform.ContactVerdictOfCodedContact | src/state/PatientState.js:220-222 | A contact with all its codings is the next of kin exactly when one relationship has a coding with code "N". |
| PatientTransform.KinOf | src/state/PatientState.js:223-234 | The next of kin's phone and email are the values of the contact's first "phone" and first "email" telecom. Its name is present exactly when the contact has one, and a missing `telecom` or `given` throws. |
| PatientTransform.NextOfKinWithoutMatch | src/state/PatientState.js:220-234 | Without a contact that has an "N" coding, the next of kin is empty. |
| PatientTransform.NextOfKinFirstMatch | src/state/PatientState.js:220-234 | The next of kin is read from the first contact that has an "N" coding. |
| PatientTransform.NextOfKinThrows | src/state/PatientState.js:220-222 | A contact before any match that has no `relationship` or no `coding` makes the lookup throw. |
| PatientTransform.AddressText | src/state/PatientState.js:206-213 | The address is the formatted lines of the first address. It is absent when there is no address or no `line`. |
| PatientTransform.TransformPatient | src/state/PatientState.js:190-250 | A missing `telecom`, `name`, `contact` or official name throws. On success: the name comes from the first official name, the initials from that name, the email from the first email telecom, and the address, photo, birth date, gender and next of kin as above; the input is kept. |
| PatientTransform.TransformWellFormedPatient | src/state/PatientState.js:190-250 | A resource with every field the transform reads unguarded never makes it throw. |
| PatientTransform.EntryIds | src/state/PatientState.js:255 | The ids are exactly the non-empty ids of the entries' resources. |
| PatientTransform.EntryIdsConcat | src/state/PatientState.js:255 | The ids keep entry order: the ids of concatenated entries are concatenated. |
| PatientTransform.EntryIdsOfIdentifiedEntries | src/state/PatientState.js:255 | When every entry has a non-empty id, there is one id per entry, in entry order. |
| PatientTransform.TransformPatientSearch | src/state/PatientState.js:252-261 | The patient ids are the entries' ids ([] without `entry`), and `total` is passed through. |
| PatientTransform.SearchIdentifier | src/state/PatientState.js:160 | The identifier parameter is the NHI system, a bar, then the id. |
| PatientFixture.TransformDummyPatient | src/state/PatientState.spec.js:3-22 | The fixture patient transforms to the record the unit test expects. |
| PatientFixture.TransformDummySearch | src/state/PatientState.js:252-316 | The fixture search result transforms to the one id "2143.19" with total 1. |
| PatientState.GetPatient | src/state/PatientState.js:121-149 | The transform of a 200 response. When the request fails, the status is not 200 or the transform throws, it is the transform of the fixture patient, so it never fails. |
| PatientState.SearchPatientRequest | src/state/PatientState.js:151-188 | Null exactly when the id or the birthdate is empty. Otherwise the transform of a 200 response, or of the fixture when the request fails, the status is not 200, or the body holds an `issue` or an `error`. |
| PatientState.PatientStore.constructor | src/state/PatientState.js:10-21 | The initial ids, empty maps, no current search, and the initial birthdate and NHI. |
| PatientState.PatientStore.CurrentSearchResult | src/state/PatientState.js:27-29 | Exactly the result stored under the current search key, and absent when there is no current key or nothing is stored under it. |
| PatientState.PatientStore.IsSearchLoading | src/state/PatientState.js:31-33 | True exactly when the current search key is marked loading. |
| PatientState.PatientStore.IsSearchError | src/state/PatientState.js:35-37 | Exactly the error recorded under the current search key, and absent when there is no current key or nothing is recorded under it. |
| PatientState.PatientStore.SearchPatient | src/state/PatientState.js:39-49 | Records the inputs and makes `${id}-${birthdate}` the current search. Marks only that key loading and clears its error. |
| PatientState.PatientStore.DebounceSearchPatient | src/state/PatientState.js:51-72 | The result is stored under the search's key whatever the current search. The error and the end of loading are written only when that key is still current. |
| PatientState.PatientStore.LoadPatientStart | src/state/PatientState.js:74-76 | Only the id's entries change: loading is true and the error null. |
| PatientState.PatientStore.LoadPatientSettle | src/state/PatientState.js:78-92 | The patient or the `{message, error}` record is stored under the id, and the id stops loading. No other id changes. |
| PatientState.PatientStore.LoadPatient | src/state/PatientState.js:74-93 | The id ends with `getPatient`'s record, no error and not loading, and every other id is as it was. |
| PatientObservationState.TransformPatientObservation | src/state/PatientObservationState.js:95-117 | Throws exactly when an entry has no resource. Otherwise one row per entry, in entry order, with id its position, code from `code.text` (absent without a `code`), categories and interpretations joined by ", ", issued, and value from `valueString`. Without a bundle or `entry` it gives no rows. The input is kept. |
| PatientObservationState.RowsConcat | src/state/PatientObservationState.js:97-111 | Rows keep entry order: the rows of concatenated entries are those of the first part, then those of the second with their ids shifted. |
| PatientObservationState.TransformConcat | src/state/PatientObservationState.js:95-117 | The same fact stated for the transforms of two bundles. |
| PatientObservationState.QueryOf | src/state/PatientObservationState.js:68-72 | The dates sent are the first ten characters of the start and end, or the whole string when it is shorter. |
| PatientObservationState.GetPatientObservation | src/state/PatientObservationState.js:62-93 | The transform of a 200 response. Otherwise (failed request, other status, throwing transform) the transform of the fallback bundle. |
| PatientObservationState.GetPatientObservationNeverFails | src/state/PatientObservationState.js:83-92 | With a readable fallback bundle the request never raises. |
| PatientObservationState.ObservationStore.constructor | src/state/PatientObservationState.js:10-15 | Empty maps, and a range whose start and end are two clock readings, taken one after the other. |
| PatientObservationState.ObservationStore.Query | src/state/PatientObservationState.js:30 | The query is made from the store's current range. |
| PatientObservationState.ObservationStore.LoadPatientObservationStart | src/state/PatientObservationState.js:17-27 | Start and end are replaced only by truthy arguments. Only the id is marked loading with its error null. |
| PatientObservationState.ObservationStore.LoadPatientObservationSettle | src/state/PatientObservationState.js:29-43 | The rows or the error record are stored under the id, and the id stops loading. |
| PatientObservationState.ObservationStore.LoadPatientObservation | src/state/PatientObservationState.js:17-44 | A truthy start or end replaces the stored one, and the other ends unchanged. The query uses the range after that update. The id ends with the outcome of `getPatientObservation` and not loading, and other ids are untouched. |
| PatientConditionState.TransformPatientCondition | src/state/PatientConditionState.js:78-96 | Throws exactly when an entry lacks a resource or its `text`. Otherwise one note per entry, in order, with id its position and text the narrative's values joined by "\n". Without a bundle or `entry` it gives no notes. The input is kept. |
| PatientConditionState.NoteTextReadsBack | src/state/PatientConditionState.js:83 | When no narrative value holds a newline, splitting a note's text on newlines gives the values back. |
| PatientConditionState.NotesConcat | src/state/PatientConditionState.js:82-90 | Notes keep entry order across concatenated entry lists. |
| PatientConditionState.ConditionUrl | src/state/PatientConditionState.js:55 | The URL is the base URI, the patient path, "/", the id, and "/Condition". |
| PatientConditionState.GetPatientCondition | src/state/PatientConditionState.js:49-76 | The transform of a 200 response. Otherwise the transform of the fallback bundle. |
| PatientConditionState.ConditionStore.constructor | src/state/PatientConditionState.js:9-11 | Empty maps. |
| PatientConditionState.ConditionStore.LoadPatientConditionStart | src/state/PatientConditionState.js:16-17 | Only the id is marked loading, with its error null. |
| PatientConditionState.ConditionStore.LoadPatientConditionSettle | src/state/PatientConditionState.js:19-33 | The notes or the error record are stored under the id, and the id stops loading. |
| PatientConditionState.ConditionStore.LoadPatientCondition | src/state/PatientConditionState.js:13-34 | The id ends with the outcome of `getPatientCondition` and not loading, and other ids are untouched. |
| PractitionerState.IdentifierValue | src/state/PractitionerState.js:129-130 | The value of the first identifier of the given use, and absent when there is none. |
| PractitionerState.OfficialName | src/state/PractitionerState.js:93-94 | Absent without an official name. Otherwise the given names and the family name joined by spaces; a missing `given` throws. |
| PractitionerState.PractitionerAddress | src/state/PractitionerState.js:97-105 | The formatted lines of the first address when they are not empty, and the address text otherwise. |
| PractitionerState.KinOf | src/state/PractitionerState.js:113-126 | A contact's name, first phone, first email, gender, and relationship texts joined by ", ". |
| PractitionerState.Kins | src/state/PractitionerState.js:112-127 | One element per contact, in order. Throws exactly when a contact lacks `telecom` or `relationship`, or has a name without `given`. |
| PractitionerState.TransformPractitioner | src/state/PractitionerState.js:78-149 | Throws exactly for a missing resource, an official name without `given`, or an unreadable contact. |
| PractitionerState.TransformPractitionerFields | src/state/PractitionerState.js:78-149 | A view the transform builds has nhi and vcareId from the first official and secondary identifiers, email and phone from the first telecoms, and the name, initials ("" without a name), address, photo and contacts as above. |
| PractitionerState.TransformEmptyPractitioner | src/state/PractitionerState.js:78-149 | A resource with no fields present transforms to an empty view instead of throwing. |
| PractitionerState.PractitionerAgreesWithPatient | src/state/PractitionerState.js:78-149 | Where both transforms succeed on a resource, they agree on the name, initials, email, photo and a non-empty address. |
| PractitionerState.PractitionerUrl | src/state/PractitionerState.js:55 | The URL is the base URI, the practitioner path, "/", and the id. |
| PractitionerState.GetPractitioner | src/state/PractitionerState.js:49-76 | A failed request or a non-200 status is rethrown. Otherwise the result is the transform's, which may throw. |
| PractitionerState.PractitionerStore.constructor | src/state/PractitionerState.js:9-11 | Empty maps. |
| PractitionerState.PractitionerStore.LoadPractitionerStart | src/state/PractitionerState.js:14-15 | Only the id is marked loading, with its error null. |
| PractitionerState.PractitionerStore.LoadPractitionerSettle | src/state/PractitionerState.js:17-31 | The view or the error record are stored under the id, and the id stops loading. |
| PractitionerState.PractitionerStore.LoadPractitioner | src/state/PractitionerState.js:13-32 | The id ends with the outcome of `getPractitioner`, whose errors reach the error map, and not loading. Other ids are untouched. |
| PatientDischargeSummaryState.RenderDiv | src/state/PatientDischargeSummaryState.js:95 | The content sits between the XHTML `div` tags. |
| PatientDischargeSummaryState.SectionResources | src/state/PatientDischargeSummaryState.js:210-211 | The filter keeps only resources of a section type. |
| PatientDischargeSummaryState.TypesInOrder | src/state/PatientDischargeSummaryState.js:212-217 | The grouping's keys are each resource type once, and nothing else. |
| PatientDischargeSummaryState.SectionEntriesResolve | src/state/PatientDischargeSummaryState.js:209-220 | Every section entry references a contained resource of a section type and carries its type, and there is at most one section. |
| PatientDischargeSummaryState.DistinctTypesAreFew | src/state/PatientDischargeSummaryState.js:209 | Distinct section types number at most the types listed. |
| PatientDischargeSummaryState.SectionsOfContained | src/state/PatientDischargeSummaryState.js:197-220 | With a summary resource there is one section, whose single entry references it. Without one there is no section. |
| PatientDischargeSummaryState.DateOrNow | src/state/PatientDischargeSummaryState.js:130 | The supplied date when it is truthy, and the clock's otherwise. |
| PatientDischargeSummaryState.SummaryResourceOf | src/state/PatientDischargeSummaryState.js:114-156 | The DocumentReference exists exactly when the summary text is non-empty. It carries the text's id, its div, the PDF's base64 data, its size and the creation date. |
| PatientDischargeSummaryState.TransformSummary | src/state/PatientDischargeSummaryState.js:87-253 | Throws a TypeError exactly when no PDF file was chosen (reading it comes first) or there is no current patient. `contained` holds the patient first, then the summary exactly when the text is non-empty, then the organization, then the practitioner. Subject, author and custodian reference the patient, the practitioner and the organization. The date is the supplied one or the clock's. There is one section holding the summary, or none. |
| PatientDischargeSummaryState.CreateDischargeSummaryRequest | src/state/PatientDischargeSummaryState.js:44-78 | A throwing transform is rethrown before any request. Otherwise only a 201 answer succeeds. |
| PatientDischargeSummaryState.DischargeSummaryStore.constructor | src/state/PatientDischargeSummaryState.js:11-12 | Not submitting, and no error. |
| PatientDischargeSummaryState.DischargeSummaryStore.CreateDischargeSummaryStart | src/state/PatientDischargeSummaryState.js:17-18 | Submitting, with the error cleared. |
| PatientDischargeSummaryState.DischargeSummaryStore.CreateDischargeSummarySettle | src/state/PatientDischargeSummaryState.js:20-29 | A failure is recorded as `{message, error}`, then submitting ends. |
| PatientDischargeSummaryState.DischargeSummaryStore.CreateDischargeSummary | src/state/PatientDischargeSummaryState.js:14-30 | Submitting ends false. The error is recorded exactly when the transform throws (no PDF file, or no current patient) or the POST does not answer 201, and is null otherwise. |
| PatientTransferPackState.TransferPayload | src/state/PatientTransferPackState.js:51-65 | A missing pack or current patient throws. Otherwise `residentId` is the current patient's `vcareId`, and every other field is the fixed text. |
| PatientTransferPackState.PayloadDependsOnlyOnResident | src/state/PatientTransferPackState.js:51-65 | Two packs give the same payload exactly when their patients have the same `vcareId`. |
| PatientTransferPackState.TransferPackUrl | src/state/PatientTransferPackState.js:49 | The URL is the base URI followed by the transfer-pack path. |
| PatientTransferPackState.CreateTransferPackRequest | src/state/PatientTransferPackState.js:42-88 | A missing pack or patient throws. Otherwise only a 201 answer succeeds. |
| PatientTransferPackState.TransferPackStore.constructor | src/state/PatientTransferPackState.js:9-10 | Not submitting, and no error. |
| PatientTransferPackState.TransferPackStore.CreateTransferPackStart | src/state/PatientTransferPackState.js:15-16 | Submitting, with the error cleared. |
| PatientTransferPackState.TransferPackStore.CreateTransferPackSettle | src/state/PatientTransferPackState.js:18-27 | A failure is recorded as `{message, error}`, then submitting ends. |
| PatientTransferPackState.TransferPackStore.CreateTransferPack | src/state/PatientTransferPackState.js:12-28 | Submitting ends false. The error stays null on success and records the failure otherwise. |
| AuthState.Payload | src/state/AuthState.js:35-43 | The login body has the client-credentials grant type, the client's id and secret, and the fixed identity context. |
| AuthState.AuthStore.constructor | src/state/AuthState.js:10-14 | The session is the stored one, authenticated exactly when one is stored, with no error and not authenticating. |
| AuthState.AuthStore.UpdateSession | src/state/AuthState.js:16-23 | Storage and store take the session, `isAuthenticated` is whether it is present, and loading is false. |
| AuthState.AuthStore.HandleLogout | src/state/AuthState.js:25-27 | No session, nothing stored, not authenticated. |
| AuthState.AuthStore.HandleLoginStart | src/state/AuthState.js:30-32 | Loading, with the error and its message cleared. |
| AuthState.AuthStore.HandleLoginSettle | src/state/AuthState.js:46-69 | A 200 answer's body becomes the session. Any failure records the error and its message and drops the session. |
| AuthState.AuthStore.HandleLogin | src/state/AuthState.js:29-70 | Authenticated exactly when the answer is a 200 holding a session. On a 200 the session is the answer's body and the error and its message are null. Otherwise the session is dropped and the error and its message are recorded. Loading ends false, and `authenticating` is untouched. |
| ObservationTable.AsWrittenDescMeaning | src/components/PatientObservationTableComponent.js:12-20 | `desc` as written answers -1 or 1 only when both cells are present and differ, and 0 exactly when they are equal or either is missing. |
| ObservationTable.AsWrittenDescIsInconsistent | src/components/PatientObservationTableComponent.js:12-20 | "b" ties with a missing cell and a missing cell ties with "a", yet "b" and "a" do not tie: ties under `desc` as written are not transitive. |
| ObservationTable.AsWrittenDecoratedIsCyclic | src/components/PatientObservationTableComponent.js:12-34 | With cells "a", missing and "b" at positions 0, 1 and 2, sorted "desc", the comparator `stableSort` hands to `sort` puts "a" before the missing cell and the missing cell before "b" (ties broken by position), and "b" before "a". |
| ObservationTable.AsWrittenSortIsImpossible | src/components/PatientObservationTableComponent.js:12-34 | However those three decorated cells are arranged, some element comes after one the comparator as written puts after it. |
| ObservationTable.DescMeaning | src/components/PatientObservationTableComponent.js:12-20 | The corrected `desc` is a three-way comparison over a total order with missing cells first. It is -1, 1 or 0 exactly as that order says, and antisymmetric. |
| ObservationTable.DescAgreesWhenPresent | src/components/PatientObservationTableComponent.js:12-20 | Where both cells are present, the corrected `desc` is `desc` as written. |
| ObservationTable.KeyLessTransitive | src/components/PatientObservationTableComponent.js:12-20 | The cell order is transitive. |
| ObservationTable.KeyLessTotal | src/components/PatientObservationTableComponent.js:12-20 | Of two different cells, one is before the other. |
| ObservationTable.GetSortingOrder | src/components/PatientObservationTableComponent.js:32-34 | "desc" puts the largest cells first, and any other order sorts ascending. The comparator is 0 exactly on equal cells. |
| ObservationTable.BeforeMeaning | src/components/PatientObservationTableComponent.js:24-28 | The decorated comparator orders by cell first, and by input position among equal cells. |
| ObservationTable.NotAfterTransitive | src/components/PatientObservationTableComponent.js:24-28 | The decorated order is transitive, so sorting by it is well defined. |
| ObservationTable.StableSort | src/components/PatientObservationTableComponent.js:22-30 | A permutation of the input (a one-to-one choice of positions, hence the same multiset), ordered by the cells, and stable: equal cells keep their input order. The input array is not modified. |
| ObservationTable.PositionsArePermutation | src/components/PatientObservationTableComponent.js:23-29 | A one-to-one choice of input positions gives back the input's elements, each as often as it occurs. |
| ObservationTable.NextOrder | src/components/PatientObservationTableComponent.js:98-102 | "asc" exactly when the clicked column is the one sorted "desc", and "desc" otherwise. |
| ObservationTable.ClicksAlternate | src/components/PatientObservationTableComponent.js:98-102 | Clicking the same column again and again alternates between "desc" and "asc". |
| ObservationTable.TableState.constructor | src/components/PatientObservationTableComponent.js:95-96 | Sorted "asc" by "issued". |
| ObservationTable.TableState.HandleRequestSort | src/components/PatientObservationTableComponent.js:98-102 | The clicked column becomes the sorted one, and the direction toggles as `NextOrder` says. |
| ObservationTable.TableState.SortedRows | src/components/PatientObservationTableComponent.js:112 | The rows shown are a permutation of the rows (a one-to-one choice of input positions), ordered by the sorted column in the chosen direction, with rows whose cells are equal in their input order. |
| GpNotes.NoteText | src/components/PatientCreateGpNotesComponent.js:140 | The note alone without a measurement. Otherwise the measurement, ": ", then the note. |
| GpNotes.NoteTextReadsBack | src/components/PatientCreateGpNotesComponent.js:140 | For non-empty measurements without a colon, a note's text determines its measurement and its note. |
| GpNotes.MeasurementsHaveNoColon | src/components/PatientCreateGpNotesComponent.js:23-40 | No measurement the select offers holds a colon. |
| GpNotes.NotesForm.constructor | src/components/PatientCreateGpNotesComponent.js:131-133 | No notes, an empty note and no measurement. |
| GpNotes.NotesForm.HandleNoteChange | src/components/PatientCreateGpNotesComponent.js:135 | The typed text becomes the current note. |
| GpNotes.NotesForm.SetCurrentNoteMeasurement | src/components/PatientCreateGpNotesComponent.js:87-95 | The measurement is one the select offers ("" or a care-plan option). |
| GpNotes.NotesForm.HandleAddNote | src/components/PatientCreateGpNotesComponent.js:136-143 | With an empty note nothing changes. Otherwise exactly one note is appended behind the unchanged earlier ones, and the note and measurement reset to "". No added note is ever empty. |

## Left out

- HTTP: every axios GET and POST is left out. Its outcome (a status and body, or a rejection) is a parameter of the helper that awaits it. The headers, the bearer token and `qs.stringify` of the search URL are not modelled.
- Timers and randomness: `wait`, `getRandomInt` and `debounce` are left out. The debounced `debounceSearchPatient` is an ordinary later call, and interleavings of concurrent settles are not modelled.
- Library calls in `transformSummary` are inputs: the base64 text of the chosen PDF (`FileReader` and `window.btoa`), absent when no file was chosen, the clock reading (date-fns `format`), and `uuidv5`, an opaque function of its name. The constant fields of the composition and of its resources (status, titles, codings, the organization's and practitioner's names) are not modelled.
- `CredentialsState` and the `store` library are left out. Local storage is the one `stored` session field of `AuthStore`, and the credentials are URL parameters.
- Fixtures: `getDummyPatient` and `getDummySearchResult` are kept with the fields the transforms read. The observation and condition fallback bundles (`getDummyPatientObservation`, `getDummyPatientCondition`) are parameters, and `getExample` is unused data.
- `src/state/PatientGpNotesState.js` holds only a fixture. The `transformNotes` its spec file calls is not part of this model.
- Rendering, JSX, the containers, routing, layouts, theme and the MobX `decorate`/observer wiring are left out.
- `undefined` and `null` are both `None`. Where the code tells them apart (a map entry absent versus set to `null`), the maps say so explicitly: an absent key is `undefined`, and `None` is `null`.
- Text.StrLess: JavaScript's string `<` compares UTF-16 code units, while a Dafny `char` is a Unicode scalar value. The two orders differ for characters beyond U+FFFF, which JavaScript stores as surrogate pairs below U+E000: "\u{1F600}" < "\uFF5E" holds in JavaScript but not in the model. `toUpperCase` is modelled only on the ASCII word characters `\w` matches.
- PatientTransform.TransformPatient: the code reads `telecom`, `name`, `contact` and the official name without a guard. The model returns `Err(TypeError)` for their absence instead of requiring them, because `getPatient` catches the throw and falls back to the fixture.
- ObservationTable.StableSort: the engine's `Array.prototype.sort`, whose algorithm the language leaves open, is modelled by an insertion sort over the decorated array. The result is the same, because the decorated order is total and antisymmetric. It sorts with the corrected comparator (see Findings).
- ObservationTable.TableState.SortedRows: React's batching of `setOrder` and `setOrderBy` is the sequence of field updates in `HandleRequestSort`.
- GpNotes.NotesForm.HandleAddNote: React reads the state values of the render, which is what `old(...)` denotes. The other form fields (clinical impression, medications and so on) only hold text and are not modelled.
- PatientDischargeSummaryState.TransformSummary: a `FileReader` that fails on a chosen file rejects with its error event. That rejection is not modelled; only the missing file, for which `readAsBinaryString` throws, is.
- PatientDischargeSummaryState.TransformSummary: the attachment size is the corrected integer size `DecodedSize`, not the real number the code computes (see Findings).
- PatientDischargeSummaryState.SummaryResourceOf: it computes that size as `DecodedSize`, not as the code's `length * 3/4 - y` (see Findings).
- Common.Message: a JavaScript TypeError's `message` is the engine's own text, which names the property read; the model stores the fixed text "TypeError" in its place.
- AuthState.AuthStore.HandleLogin: the URL and headers of the POST are not modelled, and the session is the token response as an opaque value with its `idToken`.

## Findings

| source | as written | input that shows it | evidently intended | confidence | as-written member | corrected member |
|---|---|---|---|---|---|---|
| src/state/PatientDischargeSummaryState.js:111-112 | The size is `length * 3/4 - y`, where `y` is 2 when the last but one character is `=` and 1 otherwise. So one pad character is assumed when there is none. | A 3-byte PDF encodes as "AAAA" (no padding), whose size comes out as 2. | The decoded byte count, 3/4 of the length less one byte per `=` at the end. | not executed | Base64.AsWrittenSizeOfThreeBytes | Base64.DecodedSizeOfEncoding |
| src/components/PatientObservationTableComponent.js:12-34 | `desc` compares cells with `<` and `>`, which are both false against `undefined`. So a missing cell ties with every cell, and `stableSort` breaks that tie by position. | Cells "a", missing, "b" at positions 0, 1, 2, sorted "desc": "a" comes before the missing cell and the missing cell before "b" by position, and "b" comes before "a" by value. The three form a cycle, so no arrangement agrees with the comparator, and the rows shown depend on the engine's sort. | A total order on cells, with a missing cell before every string. | not executed | ObservationTable.AsWrittenSortIsImpossible | ObservationTable.DescMeaning |
