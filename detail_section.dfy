/**
 * `ReminderViewController.Section`
 * (Today/Today/DetailViewController/ReminderViewController+Section.swift):
 * the `.view` section shows a reminder, the other three are used in edit mode.
 */
module DetailSections {
  import opened Optional

  /** An `Int`-backed enum: view = 0, title = 1, date = 2, notes = 3. */
  datatype Section = View | Title | Date | Notes

  function RawValue(s: Section): (n: nat)
    ensures n <= 3
    ensures n == 0 <==> s == View
  {
    match s
    case View => 0
    case Title => 1
    case Date => 2
    case Notes => 3
  }

  /** `Section(rawValue:)`: succeeds exactly on 0...3, as the inverse of `RawValue`. */
  function FromRawValue(n: int): (r: Option<Section>)
    ensures r.Some? <==> 0 <= n <= 3
    ensures r.Some? ==> RawValue(r.value) == n
  {
    if n == 0 then Some(View)
    else if n == 1 then Some(Title)
    else if n == 2 then Some(Date)
    else if n == 3 then Some(Notes)
    else None
  }

  lemma RawValueRoundTrip(s: Section)
    ensures FromRawValue(RawValue(s)) == Some(s)
  {
  }

  /**
   * `name`: empty for `.view`; the other names are localized strings, given
   * here by their development-language text.
   */
  function Name(s: Section): (name: string)
    ensures name == "" <==> s == View
  {
    match s
    case View => ""
    case Title => "Title"
    case Date => "Date"
    case Notes => "Notes"
  }

  /** The sections of edit mode, in display order. */
  const EditSections: seq<Section> := [Title, Date, Notes]

  /** The edit-mode sections are exactly the sections with a raw value of at least 1, in raw-value order. */
  lemma EditSectionsByRawValue()
    ensures forall s :: s in EditSections <==> RawValue(s) >= 1
    ensures forall i :: 0 <= i < |EditSections| ==> RawValue(EditSections[i]) == i + 1
  {
  }
}
