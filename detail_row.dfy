/**
 * `ReminderViewController.Row`
 * (Today/Today/DetailViewController/ReminderViewController+Row.swift): the
 * rows of the detail list and the symbol and font style each one is drawn with.
 */
module DetailRows {
  import opened Optional

  /** A `Hashable` enum; two rows are equal when their cases and payloads are. */
  datatype Row = Header(header: string) | Date | Notes | Time | Title | EditableText(text: string)

  /** `UIFont.TextStyle`, reduced to the styles the rows use. */
  datatype TextStyle = Headline | Subheadline

  /** `imageName`: the SF Symbol name (spelled as the app spells it), if any. */
  function ImageName(row: Row): (name: Option<string>)
    ensures name.Some? <==> row.Date? || row.Notes? || row.Time?
    ensures row.Date? ==> name == Some("calender.circle")
    ensures row.Notes? ==> name == Some("square.and.pencil")
    ensures row.Time? ==> name == Some("clock")
  {
    match row
    case Date => Some("calender.circle")
    case Notes => Some("square.and.pencil")
    case Time => Some("clock")
    case _ => None
  }

  /** `textStyle`: headline for the title row only. */
  function RowTextStyle(row: Row): (style: TextStyle)
    ensures style == Headline <==> row.Title?
    ensures style == Subheadline <==> !row.Title?
  {
    if row.Title? then Headline else Subheadline
  }

  /** The derived equality on rows distinguishes payloads and cases. */
  lemma RowEquality(s: string, t: string)
    ensures Header(s) == Header(t) <==> s == t
    ensures Header(s) != EditableText(s)
  {
  }
}
