/**
 * The observation notes of the consultation form: the note being typed,
 * the measurement chosen for it, and the list `handleAddNote` appends to.
 */
module GpNotes {

  /** `{ text }`, one added observation. */
  datatype Note = Note(text: string)

  /** The values of `carePlanOptions`. */
  const CarePlanOptions: seq<string> := ["Temp", "Weight", "RR", "BP"]

  /** What the measurement select offers: "" for none, then the care-plan options. */
  const Measurements: seq<string> := [""] + CarePlanOptions

  /** The measurement prefix and the note are separated by a colon and a space. */
  const Separator := ": "

  /**
   * The text of an added note: the note itself, behind "measurement: " when
   * a measurement is chosen.
   */
  function NoteText(measurement: string, note: string): (r: string)
    ensures measurement == "" ==> r == note
    ensures measurement != "" ==>
      && |r| == |measurement| + |Separator| + |note|
      && r[..|measurement|] == measurement
      && r[|measurement|..|measurement| + |Separator|] == Separator
      && r[|measurement| + |Separator|..] == note
  {
    (if measurement != "" then measurement + Separator else "") + note
  }

  predicate NoColon(s: string) {
    forall i | 0 <= i < |s| :: s[i] != ':'
  }

  /** The position of the first colon, or the length when there is none. */
  function FirstColon(s: string): (r: nat)
    ensures r <= |s|
  {
    if s == [] || s[0] == ':' then 0 else 1 + FirstColon(s[1..])
  }

  lemma {:induction false} FirstColonAfter(m: string, rest: string)
    requires NoColon(m) && rest != [] && rest[0] == ':'
    ensures FirstColon(m + rest) == |m|
  {
    if m != [] {
      assert (m + rest)[1..] == m[1..] + rest;
      FirstColonAfter(m[1..], rest);
    }
  }

  /**
   * A note's text gives back its measurement and its note when the
   * measurement holds no colon: the first colon ends the measurement.
   */
  lemma NoteTextReadsBack(m1: string, m2: string, n1: string, n2: string)
    requires NoColon(m1) && NoColon(m2) && m1 != "" && m2 != ""
    requires NoteText(m1, n1) == NoteText(m2, n2)
    ensures m1 == m2 && n1 == n2
  {
    var t := NoteText(m1, n1);
    FirstColonAfter(m1, Separator + n1);
    FirstColonAfter(m2, Separator + n2);
    assert m1 + (Separator + n1) == t == m2 + (Separator + n2);
    assert m1 == t[..|m1|] == m2;
  }

  /** No measurement the select offers holds a colon, so every note's measurement reads back. */
  lemma MeasurementsHaveNoColon()
    ensures forall m | m in Measurements :: NoColon(m)
  {
    assert Measurements == ["", "Temp", "Weight", "RR", "BP"];
  }

  /** The form's note state. */
  class NotesForm {
    var notes: seq<Note>
    var currentNote: string
    var currentNoteMeasurement: string

    /** The measurement is one the select offers, and no added note is empty. */
    predicate Valid()
      reads this
    {
      && currentNoteMeasurement in Measurements
      && forall i | 0 <= i < |notes| :: notes[i].text != ""
    }

    constructor()
      ensures Valid()
      ensures notes == [] && currentNote == "" && currentNoteMeasurement == ""
    {
      notes, currentNote, currentNoteMeasurement := [], "", "";
    }

    /** `handleNoteChange`: the typed text becomes the current note. */
    method HandleNoteChange(value: string)
      requires Valid()
      modifies this`currentNote
      ensures Valid()
      ensures currentNote == value
    {
      currentNote := value;
    }

    /** `setCurrentNoteMeasurement` from the select, which offers only `Measurements`. */
    method SetCurrentNoteMeasurement(value: string)
      requires Valid()
      requires value in Measurements
      modifies this`currentNoteMeasurement
      ensures Valid()
      ensures currentNoteMeasurement == value
    {
      currentNoteMeasurement := value;
    }

    /**
     * `handleAddNote`: with an empty note nothing changes; otherwise the
     * note is appended behind the earlier ones and the input is cleared.
     */
    method HandleAddNote()
      requires Valid()
      modifies this
      ensures Valid()
      ensures old(currentNote) == "" ==>
        notes == old(notes) && currentNote == "" && currentNoteMeasurement == old(currentNoteMeasurement)
      ensures old(currentNote) != "" ==>
        && notes == old(notes) + [Note(NoteText(old(currentNoteMeasurement), old(currentNote)))]
        && currentNote == "" && currentNoteMeasurement == ""
    {
      if currentNote != "" {
        var text := NoteText(currentNoteMeasurement, currentNote);
        currentNote := "";
        currentNoteMeasurement := "";
        notes := notes + [Note(text)];
      }
    }
  }
}
